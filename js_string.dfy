/** JavaScript's `String.prototype.split` for a one-character separator, and its inverse. */
module JsString {

  /** `s.split(sep)`: the pieces between consecutive occurrences of `sep`.
      There is always at least one piece (`"".split(sep)` is `[""]`), and no
      piece contains the separator. */
  function Split(s: string, sep: char): (pieces: seq<string>)
    ensures |pieces| >= 1
    ensures forall i :: 0 <= i < |pieces| ==> sep !in pieces[i]
    decreases |s|
  {
    if s == [] then [[]]
    else
      var rest := Split(s[1..], sep);
      if s[0] == sep then [[]] + rest
      else [[s[0]] + rest[0]] + rest[1..]
  }

  /** `pieces.join(sep)`. */
  function Join(pieces: seq<string>, sep: char): string
    requires |pieces| >= 1
    decreases |pieces|
  {
    if |pieces| == 1 then pieces[0] else pieces[0] + [sep] + Join(pieces[1..], sep)
  }

  /** Putting a character in front of the first piece puts it in front of the joined text. */
  lemma JoinConsHead(pieces: seq<string>, c: char, sep: char)
    requires |pieces| >= 1
    ensures Join([[c] + pieces[0]] + pieces[1..], sep) == [c] + Join(pieces, sep)
  {
    var q := [[c] + pieces[0]] + pieces[1..];
    if |pieces| > 1 {
      assert q[1..] == pieces[1..];
    }
  }

  /** Joining the pieces of a split gives back the text: nothing is lost. */
  lemma {:induction false} JoinSplit(s: string, sep: char)
    ensures Join(Split(s, sep), sep) == s
    decreases |s|
  {
    if s != [] {
      var rest := Split(s[1..], sep);
      JoinSplit(s[1..], sep);
      if s[0] == sep {
        assert Split(s, sep) == [[]] + rest;
        assert ([[]] + rest)[1..] == rest;
      } else {
        JoinConsHead(rest, s[0], sep);
      }
    }
  }

  /** Split is the only way to cut `s` into separator-free pieces that join back to `s`. */
  lemma {:induction false} SplitUnique(pieces: seq<string>, sep: char, s: string)
    requires |pieces| >= 1
    requires forall i :: 0 <= i < |pieces| ==> sep !in pieces[i]
    requires Join(pieces, sep) == s
    ensures Split(s, sep) == pieces
    decreases |s|
  {
    if pieces[0] == [] {
      if |pieces| > 1 {
        assert s == [sep] + Join(pieces[1..], sep);
        assert s[1..] == Join(pieces[1..], sep);
        SplitUnique(pieces[1..], sep, s[1..]);
        assert pieces == [[]] + pieces[1..];
      }
    } else {
      var c := pieces[0][0];
      var tail := [pieces[0][1..]] + pieces[1..];
      assert [[c] + tail[0]] + tail[1..] == pieces by {
        assert [c] + pieces[0][1..] == pieces[0];
        assert tail[1..] == pieces[1..];
      }
      JoinConsHead(tail, c, sep);
      assert s[1..] == Join(tail, sep);
      forall i | 0 <= i < |tail| ensures sep !in tail[i] {
        if i == 0 {
          assert tail[0] == pieces[0][1..];
        } else {
          assert tail[i] == pieces[i];
        }
      }
      SplitUnique(tail, sep, s[1..]);
    }
  }

  /** A join of separator-free pieces contains the separator exactly when there are several pieces. */
  lemma {:induction false} JoinHasSeparator(pieces: seq<string>, sep: char)
    requires |pieces| >= 1
    requires forall i :: 0 <= i < |pieces| ==> sep !in pieces[i]
    ensures sep in Join(pieces, sep) <==> |pieces| > 1
  {
    if |pieces| > 1 {
      assert Join(pieces, sep)[|pieces[0]|] == sep;
    }
  }
}
