/** Go's `strings.Fields`, which the RAID base-device list re-split relies on:
    the string is cut around each run of white space (as `unicode.IsSpace`
    defines it) and the empty pieces are dropped. */
module GoStrings {

  /** `unicode.IsSpace`: the ASCII controls '\t' '\n' '\v' '\f' '\r', the space,
      U+0085, U+00A0, and the Unicode White_Space code points above Latin-1. */
  predicate IsSpace(c: char) {
    var n := c as int;
    || 9 <= n <= 13 || n == 0x20 || n == 0x85 || n == 0xA0
    || n == 0x1680 || 0x2000 <= n <= 0x200A || n == 0x2028 || n == 0x2029
    || n == 0x202F || n == 0x205F || n == 0x3000
  }

  predicate Spaceless(w: string) {
    forall i :: 0 <= i < |w| ==> !IsSpace(w[i])
  }

  predicate AllSpace(s: string) {
    forall i :: 0 <= i < |s| ==> IsSpace(s[i])
  }

  /** A field as `strings.Fields` returns it: non-empty and free of white space. */
  predicate IsField(w: string) {
    w != [] && Spaceless(w)
  }

  /** Length of the longest white-space-free prefix of `s`. */
  function WordLen(s: string): (n: nat)
    ensures n <= |s|
    ensures Spaceless(s[..n])
    ensures n < |s| ==> IsSpace(s[n])
  {
    if s == [] || IsSpace(s[0]) then 0
    else
      var n := 1 + WordLen(s[1..]);
      assert s[..n] == [s[0]] + s[1..][..n - 1];
      n
  }

  /** `strings.Fields(s)`: every field is non-empty and white-space free. */
  function Fields(s: string): (ws: seq<string>)
    ensures forall i :: 0 <= i < |ws| ==> IsField(ws[i])
    decreases |s|
  {
    if s == [] then []
    else if IsSpace(s[0]) then Fields(s[1..])
    else
      var n := WordLen(s);
      [s[..n]] + Fields(s[n..])
  }

  /** The characters of `s` that are not white space, in order. */
  function RemoveSpaces(s: string): string {
    if s == [] then []
    else (if IsSpace(s[0]) then [] else [s[0]]) + RemoveSpaces(s[1..])
  }

  function Concat(ws: seq<string>): string {
    if ws == [] then [] else ws[0] + Concat(ws[1..])
  }

  /** `strings.Join(ws, " ")`. */
  function JoinSpaces(ws: seq<string>): string {
    if ws == [] then []
    else if |ws| == 1 then ws[0]
    else ws[0] + " " + JoinSpaces(ws[1..])
  }

  lemma {:induction false} RemoveSpacesAppend(a: string, b: string)
    ensures RemoveSpaces(a + b) == RemoveSpaces(a) + RemoveSpaces(b)
  {
    if a != [] {
      assert (a + b)[1..] == a[1..] + b;
      RemoveSpacesAppend(a[1..], b);
    } else {
      assert a + b == b;
    }
  }

  lemma {:induction false} RemoveSpacesOfSpaceless(w: string)
    requires Spaceless(w)
    ensures RemoveSpaces(w) == w
  {
    if w != [] {
      RemoveSpacesOfSpaceless(w[1..]);
    }
  }

  /** Fields loses nothing but white space and keeps the input order:
      gluing the fields back together gives the input with its white space removed. */
  lemma {:induction false} FieldsKeepOrder(s: string)
    ensures Concat(Fields(s)) == RemoveSpaces(s)
    decreases |s|
  {
    if s == [] {
    } else if IsSpace(s[0]) {
      FieldsKeepOrder(s[1..]);
    } else {
      var n := WordLen(s);
      assert s == s[..n] + s[n..];
      FieldsKeepOrder(s[n..]);
      RemoveSpacesAppend(s[..n], s[n..]);
      RemoveSpacesOfSpaceless(s[..n]);
    }
  }

  /** Fields is empty exactly when the input is all white space. */
  lemma {:induction false} FieldsEmptyIffAllSpace(s: string)
    ensures Fields(s) == [] <==> AllSpace(s)
    decreases |s|
  {
    if s != [] && IsSpace(s[0]) {
      FieldsEmptyIffAllSpace(s[1..]);
      assert AllSpace(s) <==> AllSpace(s[1..]) by {
        if AllSpace(s[1..]) {
          forall i | 0 <= i < |s| ensures IsSpace(s[i]) {
            if i > 0 { assert s[i] == s[1..][i - 1]; }
          }
        }
      }
    }
  }

  lemma {:induction false} WordLenOfField(w: string, rest: string)
    requires Spaceless(w)
    requires rest == [] || IsSpace(rest[0])
    ensures WordLen(w + rest) == |w|
  {
    if w != [] {
      assert (w + rest)[1..] == w[1..] + rest;
      WordLenOfField(w[1..], rest);
    } else {
      assert w + rest == rest;
    }
  }

  lemma FieldThen(w: string, rest: string)
    requires IsField(w)
    requires rest == [] || IsSpace(rest[0])
    ensures Fields(w + rest) == [w] + Fields(rest)
  {
    WordLenOfField(w, rest);
    var s := w + rest;
    assert s[..|w|] == w;
    assert s[|w|..] == rest;
  }

  /** A single field splits to itself. */
  lemma FieldsOfField(w: string)
    requires IsField(w)
    ensures Fields(w) == [w]
  {
    FieldThen(w, []);
    assert w + [] == w;
  }

  /** Every white-space character is a cut: what lies before it and what lies
      after it are split independently, so runs of spaces, tabs and newlines
      all separate fields alike. */
  lemma {:induction false} FieldsSplitAtSpace(a: string, c: char, b: string)
    requires IsSpace(c)
    ensures Fields(a + [c] + b) == Fields(a) + Fields(b)
    decreases |a|
  {
    var s := a + [c] + b;
    if a == [] {
      assert s == [c] + b;
      assert s[1..] == b;
    } else if IsSpace(a[0]) {
      assert s[1..] == a[1..] + [c] + b;
      FieldsSplitAtSpace(a[1..], c, b);
    } else {
      var n := WordLen(a);
      var w := a[..n];
      var rest := a[n..] + [c] + b;
      assert n > 0;
      assert s == w + rest;
      assert rest[0] == if n < |a| then a[n] else c;
      FieldThen(w, rest);
      FieldsSplitAtSpace(a[n..], c, b);
    }
  }

  /** Splitting a space-joined list of fields gives the list back. */
  lemma {:induction false} FieldsOfJoin(ws: seq<string>)
    requires forall i :: 0 <= i < |ws| ==> IsField(ws[i])
    ensures Fields(JoinSpaces(ws)) == ws
  {
    if |ws| == 1 {
      FieldThen(ws[0], []);
      assert ws[0] + [] == ws[0];
    } else if |ws| > 1 {
      var tail := JoinSpaces(ws[1..]);
      FieldsOfJoin(ws[1..]);
      assert Fields(" " + tail) == Fields(tail) by {
        assert (" " + tail)[1..] == tail;
      }
      FieldThen(ws[0], " " + tail);
      assert ws[0] + " " + tail == ws[0] + (" " + tail);
      assert ws == [ws[0]] + ws[1..];
    }
  }
}
