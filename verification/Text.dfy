/** Character-level text rules the services rely on. */
module Text {

  /** str.isspace, which is also what str.split() and str.strip() treat as white space. */
  predicate IsSpace(c: char) {
    || '\U{9}' <= c <= '\r' || '\U{1C}' <= c <= ' '
    || c == '\U{85}' || c == '\U{A0}' || c == '\U{1680}' || '\U{2000}' <= c <= '\U{200A}'
    || c == '\U{2028}' || c == '\U{2029}' || c == '\U{202F}' || c == '\U{205F}' || c == '\U{3000}'
  }

  /** not value.strip() */
  predicate IsBlank(s: string) {
    forall i :: 0 <= i < |s| ==> IsSpace(s[i])
  }

  /** ''.join(s.split()): the text without its white space. */
  function Squeeze(s: string): string {
    if s == [] then []
    else if IsSpace(s[|s|-1]) then Squeeze(s[..|s|-1])
    else Squeeze(s[..|s|-1]) + [s[|s|-1]]
  }

  /** Removing white space works piecewise. */
  lemma {:induction false} SqueezeConcat(a: string, b: string)
    ensures Squeeze(a + b) == Squeeze(a) + Squeeze(b)
  {
    if b == [] {
      assert a + b == a;
    } else {
      var cut := b[..|b|-1];
      SqueezeConcat(a, cut);
      assert (a + b)[..|a + b|-1] == a + cut;
    }
  }

  /** Nothing is left exactly when the text was blank. */
  lemma {:induction false} SqueezeEmpty(s: string)
    ensures Squeeze(s) == [] <==> IsBlank(s)
  {
    if s != [] {
      SqueezeEmpty(s[..|s|-1]);
      assert s == s[..|s|-1] + [s[|s|-1]];
    }
  }
}
