/** The payload parser of `processQRCode`: the decoded text is cut on `|` into
    segments, each segment on `:` into a key and a value, and the pairs are
    folded into a plain object from which the scan record is built. */
module Payload {
  import opened Wrappers
  import opened JsString

  /** A JavaScript object used as a string-keyed dictionary; a key bound to
      `None` is a property whose value is `undefined`. */
  type Fields = map<string, Option<string>>

  /** The one key that a plain object does not store as its own property:
      assigning a string or `undefined` to `__proto__` goes to the inherited
      setter, which ignores anything that is not an object. */
  const ProtoKey: string := "__proto__"

  /** `const [key, value] = part.split(':')`. */
  datatype KeyValue = KeyValue(key: string, value: Option<string>)

  function SplitSegment(part: string): KeyValue
  {
    var pieces := Split(part, ':');
    KeyValue(pieces[0], if |pieces| >= 2 then Some(pieces[1]) else None)
  }

  /** The key is the text before the first `:` (all of it when there is none);
      the value is the text between the first and the second `:`, or
      undefined when the segment has no `:`. */
  lemma SplitSegmentSpec(part: string)
    ensures ':' !in SplitSegment(part).key
    ensures SplitSegment(part).value.None? <==> ':' !in part
    ensures SplitSegment(part).value.None? ==> SplitSegment(part).key == part
    ensures SplitSegment(part).value.Some? ==>
      var k, v := SplitSegment(part).key, SplitSegment(part).value.value;
      && ':' !in v
      && |k| + 1 + |v| <= |part|
      && part[..|k| + 1 + |v|] == k + [':'] + v
      && (|part| == |k| + 1 + |v| || part[|k| + 1 + |v|] == ':')
  {
    var pieces := Split(part, ':');
    JoinSplit(part, ':');
    JoinHasSeparator(pieces, ':');
    if |pieces| >= 2 {
      var k, v := pieces[0], pieces[1];
      var tail := pieces[1..];
      assert part == k + [':'] + Join(tail, ':');
      if |tail| == 1 {
        assert Join(tail, ':') == v;
      } else {
        assert Join(tail, ':') == v + [':'] + Join(tail[1..], ':');
        assert part == (k + [':'] + v) + ([':'] + Join(tail[1..], ':'));
      }
    }
  }

  /** Each segment cut into its key and value, in segment order. */
  function SegmentPairs(segments: seq<string>): seq<KeyValue>
  {
    seq(|segments|, i requires 0 <= i < |segments| => SplitSegment(segments[i]))
  }

  /** `acc[key] = value; return acc;` — one step of the `reduce`. */
  function Assign(acc: Fields, kv: KeyValue): Fields
  {
    if kv.key == ProtoKey then acc else acc[kv.key := kv.value]
  }

  /** The `reduce` from `{}`, a left fold: the last pair is applied last. */
  function FoldPairs(pairs: seq<KeyValue>): Fields
    decreases |pairs|
  {
    if pairs == [] then map[]
    else Assign(FoldPairs(pairs[..|pairs| - 1]), pairs[|pairs| - 1])
  }

  /** The mapping parsed from the decoded text; it is total: parsing never fails. */
  function Parse(raw: string): Fields
  {
    FoldPairs(SegmentPairs(Split(raw, '|')))
  }

  /** Pair `i` is the last one whose key is `k`. */
  ghost predicate IsLastWithKey(pairs: seq<KeyValue>, i: int, k: string)
  {
    && 0 <= i < |pairs|
    && pairs[i].key == k
    && forall j :: i < j < |pairs| ==> pairs[j].key != k
  }

  /** A key is in the parsed mapping exactly when some pair carries it. */
  lemma {:induction false} FoldPairsHasKey(pairs: seq<KeyValue>, k: string)
    requires k != ProtoKey
    ensures k in FoldPairs(pairs) <==> exists i :: 0 <= i < |pairs| && pairs[i].key == k
    decreases |pairs|
  {
    if pairs != [] {
      var n := |pairs|;
      var init := pairs[..n - 1];
      FoldPairsHasKey(init, k);
      if pairs[n - 1].key != k {
        if i :| 0 <= i < n && pairs[i].key == k {
          assert init[i] == pairs[i];
        }
        if i :| 0 <= i < n - 1 && init[i].key == k {
          assert init[i] == pairs[i];
        }
      }
    }
  }

  /** The value of a key is that of the LAST pair carrying it: later duplicates
      overwrite earlier ones. */
  lemma {:induction false} FoldPairsLookup(pairs: seq<KeyValue>, k: string, i: int)
    requires k != ProtoKey
    requires IsLastWithKey(pairs, i, k)
    ensures k in FoldPairs(pairs) && FoldPairs(pairs)[k] == pairs[i].value
    decreases |pairs|
  {
    var n := |pairs|;
    var init := pairs[..n - 1];
    if i < n - 1 {
      assert pairs[n - 1].key != k;
      assert IsLastWithKey(init, i, k) by {
        assert init[i] == pairs[i];
        forall j | i < j < n - 1 ensures init[j].key != k {
          assert init[j] == pairs[j];
        }
      }
      FoldPairsLookup(init, k, i);
    }
  }

  /** `__proto__` never becomes a key of the parsed mapping. */
  lemma {:induction false} FoldPairsNoProto(pairs: seq<KeyValue>)
    ensures ProtoKey !in FoldPairs(pairs)
    decreases |pairs|
  {
    if pairs != [] {
      FoldPairsNoProto(pairs[..|pairs| - 1]);
    }
  }

  /** Reading `parts.KEY`: a missing property and an `undefined` one both read as undefined. */
  function Lookup(fields: Fields, k: string): Option<string>
  {
    if k in fields then fields[k] else None
  }

  /** The scan record posted to the webhook or queued offline. `scannedAt`
      is the ISO-8601 text of the clock reading at decode time, supplied by
      the caller. */
  datatype ScanRecord = ScanRecord(
    eventId: Option<string>,
    invitadoId: Option<string>,
    leadId: Option<string>,
    hash: Option<string>,
    scannedAt: string,
    qrData: string)

  /** The four keys the record reads from the parsed mapping. */
  datatype RecordKey = Event | Invitado | Lead | Hash

  function KeyName(key: RecordKey): string
  {
    match key
    case Event => "EVENT"
    case Invitado => "INVITADO"
    case Lead => "LEAD"
    case Hash => "HASH"
  }

  /** The record field that holds `key`. */
  function FieldOf(r: ScanRecord, key: RecordKey): Option<string>
  {
    match key
    case Event => r.eventId
    case Invitado => r.invitadoId
    case Lead => r.leadId
    case Hash => r.hash
  }

  /** The `scanData` literal of `processQRCode`. */
  function BuildRecord(raw: string, scannedAt: string): (r: ScanRecord)
    ensures r.qrData == raw && r.scannedAt == scannedAt
  {
    var parts := Parse(raw);
    ScanRecord(Lookup(parts, "EVENT"), Lookup(parts, "INVITADO"), Lookup(parts, "LEAD"),
               Lookup(parts, "HASH"), scannedAt, raw)
  }

  /** Each identifier of the record is the value of the last `|`-segment
      carrying its key, and is absent when no segment carries it; the raw text
      is kept unmodified whatever it contains. */
  lemma RecordFieldFromSegments(raw: string, scannedAt: string, key: RecordKey)
    ensures BuildRecord(raw, scannedAt).qrData == raw
    ensures (forall i :: 0 <= i < |Split(raw, '|')| ==> SplitSegment(Split(raw, '|')[i]).key != KeyName(key))
      ==> FieldOf(BuildRecord(raw, scannedAt), key) == None
    ensures forall i :: IsLastWithKey(SegmentPairs(Split(raw, '|')), i, KeyName(key)) ==>
      FieldOf(BuildRecord(raw, scannedAt), key) == SplitSegment(Split(raw, '|')[i]).value
  {
    var pairs := SegmentPairs(Split(raw, '|'));
    FoldPairsHasKey(pairs, KeyName(key));
    forall i | IsLastWithKey(pairs, i, KeyName(key))
      ensures FieldOf(BuildRecord(raw, scannedAt), key) == SplitSegment(Split(raw, '|')[i]).value
    {
      FoldPairsLookup(pairs, KeyName(key), i);
    }
  }

  /** The empty decode parses to one key, the empty one, bound to undefined. */
  lemma ParseEmpty()
    ensures Parse("") == map["" := None]
  {
    assert Split("", '|') == [""];
    assert SegmentPairs([""]) == [SplitSegment("")];
  }

  /** A segment `name:v` with no further `:` binds `name` to `v`. */
  lemma SplitSegmentPair(name: string, v: string)
    requires ':' !in name && ':' !in v
    ensures SplitSegment(name + ":" + v) == KeyValue(name, Some(v))
  {
    assert Join([name, v], ':') == name + ":" + v;
    SplitUnique([name, v], ':', name + ":" + v);
  }

  /** The key/value pairs of the three segments `EVENT:e`, `INVITADO:g`, `HASH:h` joined by `|`. */
  lemma WellFormedPairs(e: string, g: string, h: string)
    requires ':' !in e && '|' !in e && ':' !in g && '|' !in g && ':' !in h && '|' !in h
    ensures SegmentPairs(Split(Join(["EVENT:" + e, "INVITADO:" + g, "HASH:" + h], '|'), '|'))
      == [KeyValue("EVENT", Some(e)), KeyValue("INVITADO", Some(g)), KeyValue("HASH", Some(h))]
  {
    var segments := ["EVENT:" + e, "INVITADO:" + g, "HASH:" + h];
    SplitUnique(segments, '|', Join(segments, '|'));
    SplitSegmentPair("EVENT", e);
    SplitSegmentPair("INVITADO", g);
    SplitSegmentPair("HASH", h);
    assert "EVENT" + ":" + e == segments[0];
    assert "INVITADO" + ":" + g == segments[1];
    assert "HASH" + ":" + h == segments[2];
    PairsOfThree(segments[0], segments[1], segments[2],
                 KeyValue("EVENT", Some(e)), KeyValue("INVITADO", Some(g)), KeyValue("HASH", Some(h)));
  }

  lemma PairsOfThree(s0: string, s1: string, s2: string, p0: KeyValue, p1: KeyValue, p2: KeyValue)
    requires SplitSegment(s0) == p0 && SplitSegment(s1) == p1 && SplitSegment(s2) == p2
    ensures SegmentPairs([s0, s1, s2]) == [p0, p1, p2]
  {
  }

  /** A well-formed payload, the segments `EVENT:e`, `INVITADO:g`, `HASH:h`
      joined by `|` with values that hold no delimiter: three recognised
      keys taken verbatim, the fourth absent. */
  lemma ParseWellFormed(e: string, g: string, h: string, scannedAt: string)
    requires ':' !in e && '|' !in e && ':' !in g && '|' !in g && ':' !in h && '|' !in h
    ensures var raw := Join(["EVENT:" + e, "INVITADO:" + g, "HASH:" + h], '|');
      BuildRecord(raw, scannedAt) == ScanRecord(Some(e), Some(g), None, Some(h), scannedAt, raw)
  {
    WellFormedPairs(e, g, h);
    var pairs := [KeyValue("EVENT", Some(e)), KeyValue("INVITADO", Some(g)), KeyValue("HASH", Some(h))];
    assert IsLastWithKey(pairs, 0, "EVENT");
    assert IsLastWithKey(pairs, 1, "INVITADO");
    assert IsLastWithKey(pairs, 2, "HASH");
    FoldPairsLookup(pairs, "EVENT", 0);
    FoldPairsLookup(pairs, "INVITADO", 1);
    FoldPairsLookup(pairs, "HASH", 2);
    FoldPairsHasKey(pairs, "LEAD");
  }

  /** Only the text before the second `:` is kept: `KEY:a:b` binds `KEY` to `a`. */
  lemma SplitSegmentExtraColon(name: string, a: string, b: string)
    requires ':' !in name && ':' !in a && ':' !in b
    ensures SplitSegment(name + ":" + a + ":" + b) == KeyValue(name, Some(a))
  {
    assert Join([b], ':') == b;
    assert Join([a, b], ':') == a + ":" + b;
    assert Join([name, a, b], ':') == name + ":" + a + ":" + b;
    SplitUnique([name, a, b], ':', name + ":" + a + ":" + b);
  }
}
