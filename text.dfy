/**
 * Character-level helpers of the frame decoder: the library calls that
 * `processHealthData` makes on each chunk (`trim`, `filter`) and on the
 * accumulated buffer (`contains`, `indexOf`).
 */
module Text {

  /** Kotlin's `Char.isWhitespace()` on the JVM: `Character.isWhitespace(c) || Character.isSpaceChar(c)`. */
  predicate IsWhitespace(c: char) {
    ('\t' <= c <= '\r') || ('\U{1C}' <= c <= ' ') || c == '\U{A0}' || c == '\U{1680}'
    || ('\U{2000}' <= c <= '\U{200A}') || c == '\U{2028}' || c == '\U{2029}'
    || c == '\U{202F}' || c == '\U{205F}' || c == '\U{3000}'
  }

  /** The decoder's filter: keep characters whose code lies in 32..126. */
  predicate IsPrintable(c: char) {
    32 <= c as int <= 126
  }

  predicate AllPrintable(s: string) {
    forall i :: 0 <= i < |s| ==> IsPrintable(s[i])
  }

  /** Drops leading whitespace. */
  function TrimStart(s: string): (r: string)
    ensures |r| <= |s| && r == s[|s| - |r|..]
    ensures forall i :: 0 <= i < |s| - |r| ==> IsWhitespace(s[i])
    ensures r != [] ==> !IsWhitespace(r[0])
  {
    if s != [] && IsWhitespace(s[0]) then TrimStart(s[1..]) else s
  }

  /** Drops trailing whitespace. */
  function TrimEnd(s: string): (r: string)
    ensures |r| <= |s| && r == s[..|r|]
    ensures forall i :: |r| <= i < |s| ==> IsWhitespace(s[i])
    ensures r != [] ==> !IsWhitespace(r[|r| - 1])
  {
    if s != [] && IsWhitespace(s[|s| - 1]) then TrimEnd(s[..|s| - 1]) else s
  }

  /** Number of leading whitespace characters that `Trim` removes. */
  function TrimOffset(s: string): nat {
    |s| - |TrimStart(s)|
  }

  /** Kotlin's `String.trim()`: a slice of `s`, see `TrimMargins`. */
  function Trim(s: string): (r: string)
    ensures TrimOffset(s) + |r| <= |s| && r == s[TrimOffset(s)..TrimOffset(s) + |r|]
  {
    var t := TrimStart(s);
    var r := TrimEnd(t);
    assert s[|s| - |t|..] == t;
    assert t[..|r|] == s[|s| - |t|..][..|r|];
    r
  }

  /**
   * What `trim` removes is whitespace, and what it keeps neither starts nor
   * ends with whitespace.
   */
  lemma TrimMargins(s: string)
    ensures forall i :: 0 <= i < TrimOffset(s) ==> IsWhitespace(s[i])
    ensures forall i :: TrimOffset(s) + |Trim(s)| <= i < |s| ==> IsWhitespace(s[i])
    ensures Trim(s) != [] ==> !IsWhitespace(Trim(s)[0]) && !IsWhitespace(Trim(s)[|Trim(s)| - 1])
  {
    var t := TrimStart(s);
    var r := TrimEnd(t);
    var off := TrimOffset(s);
    assert r == Trim(s);
    forall i | off + |r| <= i < |s| ensures IsWhitespace(s[i]) {
      assert s[i] == t[i - off];
    }
    if r != [] {
      assert r[0] == t[0];
    }
  }

  /** `filter { it.code in 32..126 }`: the printable characters of `s`, in order. */
  function KeepPrintable(s: string): (r: string)
    ensures |r| <= |s|
    ensures AllPrintable(r)
    ensures forall c :: c in r <==> c in s && IsPrintable(c)
    ensures AllPrintable(s) ==> r == s
  {
    if s == [] then []
    else
      var rest := KeepPrintable(s[1..]);
      assert forall c :: c in s <==> c == s[0] || c in s[1..];
      if IsPrintable(s[0]) then [s[0]] + rest else rest
  }

  /**
   * The filter works character by character: a single character is kept
   * exactly when it is printable, and filtering a concatenation filters
   * each part, so order and repeats are kept.
   */
  lemma {:induction false} KeepPrintableConcat(a: string, b: string)
    ensures KeepPrintable(a + b) == KeepPrintable(a) + KeepPrintable(b)
    ensures |a| == 1 ==> KeepPrintable(a) == if IsPrintable(a[0]) then a else []
  {
    if a == [] {
      assert a + b == b;
    } else {
      assert (a + b)[1..] == a[1..] + b;
      KeepPrintableConcat(a[1..], b);
    }
  }

  /** What `processHealthData` appends for one chunk: trimmed first, filtered second. */
  function Sanitize(data: string): (r: string)
    ensures AllPrintable(r)
    ensures forall c :: c in r ==> c in data
  {
    KeepPrintable(Trim(data))
  }

  /** Kotlin's `indexOf`: where `c` occurs in `s`, or -1; see `IndexOfIsFirst`. */
  function IndexOf(s: string, c: char): (r: int)
    ensures -1 <= r < |s|
    ensures r != -1 ==> s[r] == c
  {
    if s == [] then -1
    else if s[0] == c then 0
    else
      var k := IndexOf(s[1..], c);
      if k == -1 then -1 else k + 1
  }

  /** `indexOf` reports -1 exactly when `c` is absent, and otherwise its first occurrence. */
  lemma {:induction false} IndexOfIsFirst(s: string, c: char)
    ensures IndexOf(s, c) == -1 <==> c !in s
    ensures forall j :: 0 <= j < IndexOf(s, c) ==> s[j] != c
  {
    if s != [] && s[0] != c {
      IndexOfIsFirst(s[1..], c);
      assert c in s <==> c in s[1..] by {
        assert s == [s[0]] + s[1..];
      }
      forall j | 0 <= j < IndexOf(s, c) ensures s[j] != c {
        if j > 0 { assert s[j] == s[1..][j - 1]; }
      }
    }
  }

  /** An occurrence with no earlier one is the one `indexOf` reports. */
  lemma IndexOfAt(s: string, c: char, k: nat)
    requires k < |s| && s[k] == c && c !in s[..k]
    ensures IndexOf(s, c) == k
  {
    IndexOfIsFirst(s, c);
    var r := IndexOf(s, c);
    assert s[k] in s;
    assert forall j :: 0 <= j < k ==> s[..k][j] == s[j];
  }

  /**
   * The chunk is trimmed before it is filtered, so a non-printable character
   * in front of a space shields that space from the trim: the space survives.
   */
  lemma TrimBeforeFilterKeepsSpace()
    ensures Sanitize("\U{1} {") == " {"
  {
    assert TrimStart("\U{1} {") == "\U{1} {";
    assert TrimEnd("\U{1} {") == "\U{1} {";
    assert KeepPrintable("\U{1} {") == " {" by {
      assert "\U{1} {"[1..] == " {";
      assert KeepPrintable(" {") == " {";
    }
  }

  /** Printable text that neither starts nor ends with whitespace. */
  predicate Solid(s: string) {
    s != [] && AllPrintable(s) && !IsWhitespace(s[0]) && !IsWhitespace(s[|s| - 1])
  }

  /** `Sanitize` leaves solid text as it is. */
  lemma SolidIsSanitized(s: string)
    requires Solid(s)
    ensures Sanitize(s) == s
  {
    assert TrimStart(s) == s;
    assert TrimEnd(s) == s;
  }

  /** A trailing space after solid text is trimmed away. */
  lemma TrailingSpaceTrimmed(a: string)
    requires Solid(a)
    ensures Sanitize(a + " ") == a
  {
    var a' := a + " ";
    assert TrimStart(a') == a';
    assert a'[..|a'| - 1] == a;
    assert TrimEnd(a) == a;
    assert Trim(a') == a;
  }

  /** Two solid texts joined by a space are solid. */
  lemma SolidJoin(a: string, b: string)
    requires Solid(a) && Solid(b)
    ensures Solid(a + " " + b)
  {
    var ab := a + " " + b;
    forall i | 0 <= i < |ab| ensures IsPrintable(ab[i]) {
      if i < |a| { assert ab[i] == a[i]; }
      else if i > |a| { assert ab[i] == b[i - |a| - 1]; }
    }
  }

  /**
   * Each chunk is trimmed on its own, so a space that arrives at the end of
   * one chunk is lost, while the same text in one chunk keeps it: how the
   * text is split into chunks changes what reaches the buffer.
   */
  lemma ChunkEdgeSpaceIsLost(a: string, b: string)
    requires Solid(a) && Solid(b)
    ensures Sanitize(a + " ") + Sanitize(b) == a + b
    ensures Sanitize(a + " " + b) == a + " " + b
  {
    TrailingSpaceTrimmed(a);
    SolidIsSanitized(b);
    SolidJoin(a, b);
    SolidIsSanitized(a + " " + b);
  }
}
