/** Python's `str.strip()` with no argument: remove leading and trailing whitespace,
    where whitespace is what `str.isspace()` accepts. */
module PyStr {

  /** One character for which Python's `str.isspace()` holds: the ASCII controls
      TAB, LF, VT, FF, CR, the separators 0x1C-0x1F, SPACE, NEL, NO-BREAK SPACE and the
      Unicode space separators and line/paragraph separators. */
  predicate IsSpace(c: char) {
    || ('\U{9}' <= c <= '\U{D}')
    || ('\U{1C}' <= c <= '\U{20}')
    || c == '\U{85}'
    || c == '\U{A0}'
    || c == '\U{1680}'
    || ('\U{2000}' <= c <= '\U{200A}')
    || c == '\U{2028}'
    || c == '\U{2029}'
    || c == '\U{202F}'
    || c == '\U{205F}'
    || c == '\U{3000}'
  }

  predicate AllSpace(s: string) {
    forall i :: 0 <= i < |s| ==> IsSpace(s[i])
  }

  /** Neither the first nor the last character is whitespace. */
  predicate Unpadded(s: string) {
    s == [] || (!IsSpace(s[0]) && !IsSpace(s[|s| - 1]))
  }

  /** The number of whitespace characters at the start of `s`. */
  function LeadingSpace(s: string): (n: nat)
    ensures n <= |s|
    ensures forall k :: 0 <= k < n ==> IsSpace(s[k])
    ensures n < |s| ==> !IsSpace(s[n])
  {
    if s == [] || !IsSpace(s[0]) then 0
    else 1 + LeadingSpace(s[1..])
  }

  /** The number of whitespace characters at the end of `s`. */
  function TrailingSpace(s: string): (n: nat)
    ensures n <= |s|
    ensures forall k :: |s| - n <= k < |s| ==> IsSpace(s[k])
    ensures n < |s| ==> !IsSpace(s[|s| - n - 1])
  {
    if s == [] || !IsSpace(s[|s| - 1]) then 0
    else 1 + TrailingSpace(s[..|s| - 1])
  }

  /** `s.strip()`: the result is the slice of `s` that starts after its leading
      whitespace, everything after the slice is whitespace, and the result neither
      starts nor ends with whitespace. */
  function Strip(s: string): (r: string)
    ensures Unpadded(r)
    ensures LeadingSpace(s) + |r| <= |s|
    ensures r == s[LeadingSpace(s)..LeadingSpace(s) + |r|]
    ensures forall k :: LeadingSpace(s) + |r| <= k < |s| ==> IsSpace(s[k])
  {
    var i := LeadingSpace(s);
    if i == |s| then []
    else s[i..|s| - TrailingSpace(s)]
  }

  /** Leading whitespace stops where the padding `a` stops. */
  lemma LeadingSpaceOfPadding(a: string, u: string)
    requires AllSpace(a)
    requires u == [] || !IsSpace(u[0])
    ensures LeadingSpace(a + u) == |a|
  {
    if u != [] {
      assert (a + u)[|a|] == u[0];
    }
  }

  /** Trailing whitespace starts where the padding `b` starts. */
  lemma TrailingSpaceOfPadding(u: string, b: string)
    requires AllSpace(b)
    requires u == [] || !IsSpace(u[|u| - 1])
    ensures TrailingSpace(u + b) == |b|
  {
    if u != [] {
      assert (u + b)[|u| - 1] == u[|u| - 1];
    }
  }

  /** Uniqueness: whenever `s` splits as whitespace, an unpadded core and whitespace,
      `Strip` returns exactly that core. Together with `Strip`'s own contract this
      characterises `str.strip()` completely. */
  lemma StripUnique(a: string, core: string, b: string)
    requires AllSpace(a) && AllSpace(b) && Unpadded(core)
    ensures Strip(a + core + b) == core
  {
    var s := a + core + b;
    if core == [] {
      assert s == (a + b) + [];
      LeadingSpaceOfPadding(a + b, []);
    } else {
      assert s == a + (core + b);
      LeadingSpaceOfPadding(a, core + b);
      TrailingSpaceOfPadding(a + core, b);
      assert s[|a|..|s| - |b|] == core;
    }
  }

  /** Stripping twice is stripping once. */
  lemma StripIdempotent(s: string)
    ensures Strip(Strip(s)) == Strip(s)
  {
    var r := Strip(s);
    StripUnique([], r, []);
    assert [] + r + [] == r;
  }

  /** The example of the chat relay's stub backend: `" hi there "` strips to `"hi there"`. */
  lemma StripExample()
    ensures Strip(" hi there ") == "hi there"
  {
    StripUnique(" ", "hi there", " ");
    assert " " + "hi there" + " " == " hi there ";
  }
}
