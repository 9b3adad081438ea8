/**
 * String helpers used by the command parser: prefix tests, splitting on a
 * single space (JavaScript's `split(/ /g)`), joining with a single space
 * (`Array.prototype.join(" ")`) and ASCII lower-casing.
 */
module Text {

  predicate StartsWith(s: string, prefix: string) {
    |prefix| <= |s| && s[..|prefix|] == prefix
  }

  /** Index of the first space of `s`, or `|s|` when there is none. */
  function SpaceIndex(s: string): (i: nat)
    ensures i <= |s|
    ensures i < |s| ==> s[i] == ' '
    ensures forall j :: 0 <= j < i ==> s[j] != ' '
  {
    if |s| == 0 then 0
    else if s[0] == ' ' then 0
    else 1 + SpaceIndex(s[1..])
  }

  /**
   * `ws.join(" ")`: the empty list joins to "", otherwise the result starts
   * with the first word, followed by a space when more words follow.
   */
  function JoinWords(ws: seq<string>): (r: string)
    ensures |ws| == 0 ==> r == ""
    ensures |ws| >= 1 ==> |ws[0]| <= |r| && r[..|ws[0]|] == ws[0]
    ensures |ws| > 1 ==> |ws[0]| < |r| && r[|ws[0]|] == ' '
  {
    if |ws| == 0 then ""
    else if |ws| == 1 then ws[0]
    else ws[0] + " " + JoinWords(ws[1..])
  }

  /**
   * `s.split(/ /g)`: the pieces between single spaces. There is always at
   * least one piece, no piece holds a space, the first piece is the text up to
   * the first space, and joining the pieces again gives back `s`.
   */
  function Split(s: string): (ws: seq<string>)
    ensures |ws| >= 1
    ensures forall k :: 0 <= k < |ws| ==> ' ' !in ws[k]
    ensures ws[0] == s[..SpaceIndex(s)]
    ensures |ws| == 1 <==> SpaceIndex(s) == |s|
  {
    if |s| == 0 then [""]
    else if s[0] == ' ' then [""] + Split(s[1..])
    else
      var rest := Split(s[1..]);
      assert s[1..][..SpaceIndex(s[1..])] == s[1..SpaceIndex(s)];
      [[s[0]] + rest[0]] + rest[1..]
  }

  /** Splitting the text after the first space gives the remaining pieces. */
  lemma {:induction false} SplitTail(s: string)
    requires SpaceIndex(s) < |s|
    ensures Split(s)[1..] == Split(s[SpaceIndex(s) + 1..])
  {
    if s[0] != ' ' {
      SplitTail(s[1..]);
      assert s[1..][SpaceIndex(s[1..]) + 1..] == s[SpaceIndex(s) + 1..];
    }
  }

  lemma RejoinAtSpace(s: string, i: nat)
    requires i < |s| && s[i] == ' '
    ensures s[..i] + " " + s[i + 1..] == s
  {
    assert s == s[..i] + [s[i]] + s[i + 1..];
  }

  /** Joining the pieces of `s` with single spaces gives back `s`. */
  lemma {:induction false} JoinSplit(s: string)
    ensures JoinWords(Split(s)) == s
  {
    var ws := Split(s);
    var i := SpaceIndex(s);
    if |ws| == 1 {
      assert s[..|s|] == s;
    } else {
      var tail := s[i + 1..];
      SplitTail(s);
      assert ws[1..] == Split(tail);
      JoinSplit(tail);
      assert JoinWords(ws[1..]) == tail;
      assert ws[0] == s[..i];
      calc {
        JoinWords(ws);
        ws[0] + " " + JoinWords(ws[1..]);
        s[..i] + " " + tail;
        { RejoinAtSpace(s, i); }
        s;
      }
    }
  }

  /** The first space of `w + " " + rest` is right after `w` when `w` has none. */
  lemma SpaceIndexAfterWord(w: string, rest: string)
    requires ' ' !in w
    ensures SpaceIndex(w + " " + rest) == |w|
  {
    var s := w + " " + rest;
    assert s[|w|] == ' ';
  }

  /**
   * The converse round trip: a non-empty list of space-free words splits back
   * into exactly those words after joining.
   */
  lemma {:induction false} SplitJoin(ws: seq<string>)
    requires |ws| >= 1
    requires forall k :: 0 <= k < |ws| ==> ' ' !in ws[k]
    ensures Split(JoinWords(ws)) == ws
  {
    var s := JoinWords(ws);
    if |ws| == 1 {
      assert s[..|s|] == s;
    } else {
      var rest := JoinWords(ws[1..]);
      assert s == ws[0] + " " + rest;
      SpaceIndexAfterWord(ws[0], rest);
      assert s[..|ws[0]|] == ws[0];
      SplitTail(s);
      assert s[|ws[0]| + 1..] == rest;
      SplitJoin(ws[1..]);
      assert Split(s) == [Split(s)[0]] + Split(s)[1..];
    }
  }

  predicate IsUpper(c: char) {
    'A' <= c <= 'Z'
  }

  /** ASCII case mapping, the part of `toLowerCase` the bot's commands exercise. */
  function LowerChar(c: char): char {
    if IsUpper(c) then (c as int - 'A' as int + 'a' as int) as char else c
  }

  /**
   * `toLowerCase` on ASCII: same length, every letter mapped to its lower
   * case, no upper-case letter left.
   */
  function Lower(s: string): (r: string)
    ensures |r| == |s|
    ensures forall i :: 0 <= i < |s| ==> r[i] == LowerChar(s[i])
    ensures forall i :: 0 <= i < |r| ==> !IsUpper(r[i])
  {
    if |s| == 0 then "" else [LowerChar(s[0])] + Lower(s[1..])
  }

}
