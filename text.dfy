/**
 * Strings as the server (Python) and the browser scripts (JavaScript) see them:
 * the two notions of white space, stripping, prefixes and joining.
 */
module Text {

  /** Which language's notion of white space a strip uses. */
  datatype Flavor = Python | EcmaScript

  /** Python's `str.isspace()` for a single character. */
  predicate IsPythonSpace(c: char)
  {
    ('\t' <= c <= '\r') || ('\U{1C}' <= c <= '\U{1F}') || c == ' '
    || c == '\U{85}' || c == '\U{A0}' || c == '\U{1680}'
    || ('\U{2000}' <= c <= '\U{200A}') || c == '\U{2028}' || c == '\U{2029}'
    || c == '\U{202F}' || c == '\U{205F}' || c == '\U{3000}'
  }

  /** The ECMAScript WhiteSpace and LineTerminator code points, which `String.prototype.trim` removes. */
  predicate IsEcmaSpace(c: char)
  {
    ('\t' <= c <= '\r') || c == ' '
    || c == '\U{A0}' || c == '\U{1680}'
    || ('\U{2000}' <= c <= '\U{200A}') || c == '\U{2028}' || c == '\U{2029}'
    || c == '\U{202F}' || c == '\U{205F}' || c == '\U{3000}' || c == '\U{FEFF}'
  }

  predicate IsSpace(f: Flavor, c: char)
  {
    match f
    case Python => IsPythonSpace(c)
    case EcmaScript => IsEcmaSpace(c)
  }

  /** The two languages disagree: U+FEFF is trimmed only by JavaScript, U+001C and U+0085 only by Python. */
  lemma FlavorsDiffer()
    ensures IsEcmaSpace('\U{FEFF}') && !IsPythonSpace('\U{FEFF}')
    ensures IsPythonSpace('\U{1C}') && !IsEcmaSpace('\U{1C}')
    ensures IsPythonSpace('\U{85}') && !IsEcmaSpace('\U{85}')
  {
  }

  /** Index of the first character of `s` that is not white space (`|s|` if there is none). */
  function SpanStart(f: Flavor, s: string): (i: nat)
    ensures i <= |s|
    ensures forall k :: 0 <= k < i ==> IsSpace(f, s[k])
    ensures i < |s| ==> !IsSpace(f, s[i])
  {
    if |s| == 0 || !IsSpace(f, s[0]) then 0 else 1 + SpanStart(f, s[1..])
  }

  /** Index just past the last character of `s` that is not white space (`0` if there is none). */
  function SpanEnd(f: Flavor, s: string): (j: nat)
    ensures j <= |s|
    ensures forall k :: j <= k < |s| ==> IsSpace(f, s[k])
    ensures 0 < j ==> !IsSpace(f, s[j - 1])
  {
    if |s| == 0 || !IsSpace(f, s[|s| - 1]) then |s| else SpanEnd(f, s[..|s| - 1])
  }

  /**
   * Python's `str.strip()` / JavaScript's `String.prototype.trim()`: the
   * longest slice of `s` that neither starts nor ends with white space, once
   * all leading and trailing white space is removed.
   */
  function Strip(f: Flavor, s: string): (r: string)
    ensures r == [] <==> forall k :: 0 <= k < |s| ==> IsSpace(f, s[k])
    ensures r != [] ==> !IsSpace(f, r[0]) && !IsSpace(f, r[|r| - 1])
    ensures r != [] ==> r == s[SpanStart(f, s)..SpanEnd(f, s)]
  {
    var i, j := SpanStart(f, s), SpanEnd(f, s);
    if i < j then s[i..j] else []
  }

  /** Stripping twice is stripping once: a stripped text neither starts nor ends with white space. */
  lemma StripIdempotent(f: Flavor, s: string)
    ensures Strip(f, Strip(f, s)) == Strip(f, s)
  {
    var r := Strip(f, s);
    if r != [] {
      assert SpanStart(f, r) == 0;
      assert SpanEnd(f, r) == |r|;
      assert r[0..|r|] == r;
    }
  }

  /** Every character that is not white space lies inside the stripped span. */
  lemma NonSpaceInSpan(f: Flavor, s: string, k: nat)
    requires k < |s| && !IsSpace(f, s[k])
    ensures SpanStart(f, s) <= k < SpanEnd(f, s)
    ensures |Strip(f, s)| == SpanEnd(f, s) - SpanStart(f, s)
  {
  }

  /**
   * What a minimum stripped length means without mentioning the strip: the
   * stripped text has at least `n` characters exactly when two characters
   * that are not white space stand at least `n - 1` positions apart.
   */
  lemma StrippedAtLeast(f: Flavor, s: string, n: nat)
    requires n >= 1
    ensures |Strip(f, s)| >= n <==>
      exists i, j :: 0 <= i <= j < |s| && j - i + 1 >= n && !IsSpace(f, s[i]) && !IsSpace(f, s[j])
  {
    if |Strip(f, s)| >= n {
      var a, b := SpanStart(f, s), SpanEnd(f, s);
      assert a < b && !IsSpace(f, s[a]) && !IsSpace(f, s[b - 1]);
      assert 0 <= a <= b - 1 < |s| && (b - 1) - a + 1 >= n;
    } else {
      forall i, j | 0 <= i <= j < |s| && !IsSpace(f, s[i]) && !IsSpace(f, s[j])
        ensures j - i + 1 < n
      {
        NonSpaceInSpan(f, s, i);
        NonSpaceInSpan(f, s, j);
      }
    }
  }

  /** `Array.prototype.join(sep)` / Python's `sep.join(parts)`. */
  function Join(parts: seq<string>, sep: string): (r: string)
    ensures |parts| == 1 ==> r == parts[0]
    ensures parts == [] ==> r == ""
    decreases |parts|
  {
    if |parts| == 0 then ""
    else if |parts| == 1 then parts[0]
    else parts[0] + sep + Join(parts[1..], sep)
  }

  /** Joining a concatenation is joining each half and putting one separator between them. */
  lemma {:induction false} JoinAppend(a: seq<string>, b: seq<string>, sep: string)
    requires a != [] && b != []
    ensures Join(a + b, sep) == Join(a, sep) + sep + Join(b, sep)
    decreases |a|
  {
    if |a| == 1 {
      assert (a + b)[1..] == b;
    } else {
      assert (a + b)[1..] == a[1..] + b;
      JoinAppend(a[1..], b, sep);
    }
  }

  /** The joined text is as long as its parts plus one separator between each neighbouring pair. */
  lemma {:induction false} JoinLength(parts: seq<string>, sep: string)
    requires parts != []
    ensures |Join(parts, sep)| == TotalLength(parts) + (|parts| - 1) * |sep|
    decreases |parts|
  {
    if |parts| > 1 {
      JoinLength(parts[1..], sep);
    }
  }

  function TotalLength(parts: seq<string>): nat
  {
    if parts == [] then 0 else |parts[0]| + TotalLength(parts[1..])
  }
}
