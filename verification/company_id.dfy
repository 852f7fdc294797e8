/** Normalisation of a company identifier (CNPJ) before a batch of company lookups. */
module CompanyId {

  /** The punctuation stripped from a CNPJ. */
  predicate IsSeparator(c: char) {
    c == '.' || c == '/' || c == '-'
  }

  /** Python's `s.replace(c, "")`: every occurrence of `c` removed. */
  function RemoveChar(s: string, c: char): (r: string)
    ensures |r| <= |s|
    ensures forall x :: x in r ==> x in s && x != c
  {
    if |s| == 0 then ""
    else (if s[0] == c then "" else [s[0]]) + RemoveChar(s[1..], c)
  }

  /** `cnpj.replace(".", "").replace("/", "").replace("-", "")`. */
  function Normalize(cnpj: string): (r: string)
    ensures forall x :: x in r ==> x in cnpj && !IsSeparator(x)
  {
    RemoveChar(RemoveChar(RemoveChar(cnpj, '.'), '/'), '-')
  }

  /** Reference definition: one left-to-right pass keeping every non-separator. */
  function Strip(s: string): string {
    if |s| == 0 then ""
    else (if IsSeparator(s[0]) then "" else [s[0]]) + Strip(s[1..])
  }

  lemma {:induction false} RemoveCharConcat(a: string, b: string, c: char)
    ensures RemoveChar(a + b, c) == RemoveChar(a, c) + RemoveChar(b, c)
    decreases |a|
  {
    if |a| == 0 {
      assert a + b == b;
    } else {
      assert (a + b)[1..] == a[1..] + b;
      RemoveCharConcat(a[1..], b, c);
    }
  }

  /** The three chained replacements remove exactly the separators, keeping the rest in order. */
  lemma {:induction false} NormalizeIsStrip(s: string)
    ensures Normalize(s) == Strip(s)
    decreases |s|
  {
    if |s| > 0 {
      var head, rest := [s[0]], s[1..];
      assert s == head + rest;
      NormalizeIsStrip(rest);
      var r1 := RemoveChar(head, '.');
      var r2 := RemoveChar(r1, '/');
      RemoveCharConcat(head, rest, '.');
      RemoveCharConcat(r1, RemoveChar(rest, '.'), '/');
      RemoveCharConcat(r2, RemoveChar(RemoveChar(rest, '.'), '/'), '-');
      assert RemoveChar(r2, '-') == if IsSeparator(s[0]) then "" else head;
    }
  }

  /** Stripping distributes over concatenation: characters keep their relative order. */
  lemma {:induction false} StripConcat(a: string, b: string)
    ensures Strip(a + b) == Strip(a) + Strip(b)
    decreases |a|
  {
    if |a| == 0 {
      assert a + b == b;
    } else {
      assert (a + b)[1..] == a[1..] + b;
      StripConcat(a[1..], b);
    }
  }

  /** A string without separators is left unchanged. */
  lemma {:induction false} StripKeepsClean(s: string)
    requires forall x :: x in s ==> !IsSeparator(x)
    ensures Strip(s) == s
    decreases |s|
  {
    if |s| > 0 {
      assert s[0] in s;
      assert forall x :: x in s[1..] ==> x in s;
      StripKeepsClean(s[1..]);
    }
  }

  /** The output of `Strip` has no separators. */
  lemma {:induction false} StripIsClean(s: string)
    ensures forall x :: x in Strip(s) ==> !IsSeparator(x)
    decreases |s|
  {
    if |s| > 0 {
      StripIsClean(s[1..]);
    }
  }

  /** Normalisation is the identity exactly on separator-free strings, and is idempotent. */
  lemma NormalizeFixedPoints(s: string)
    ensures Normalize(s) == s <==> forall x :: x in s ==> !IsSeparator(x)
    ensures Normalize(Normalize(s)) == Normalize(s)
  {
    NormalizeIsStrip(s);
    if forall x :: x in s ==> !IsSeparator(x) {
      StripKeepsClean(s);
    }
    StripIsClean(s);
    NormalizeIsStrip(Strip(s));
    StripKeepsClean(Strip(s));
  }

  /** Normalisation distributes over concatenation. */
  lemma NormalizeConcat(a: string, b: string)
    ensures Normalize(a + b) == Normalize(a) + Normalize(b)
  {
    NormalizeIsStrip(a + b);
    NormalizeIsStrip(a);
    NormalizeIsStrip(b);
    StripConcat(a, b);
  }

  /** Stripping `a + [sep] + b` for a separator drops just that separator. */
  lemma StripAroundSeparator(a: string, sep: char, b: string)
    requires IsSeparator(sep)
    ensures Strip(a + [sep] + b) == Strip(a) + Strip(b)
  {
    StripConcat(a + [sep], b);
    StripConcat(a, [sep]);
    assert Strip([sep]) == "";
  }

  predicate Clean(s: string) {
    forall x :: x in s ==> !IsSeparator(x)
  }

  /** A CNPJ written as "AA.BBB.CCC/DDDD-EE" strips to its digit groups run together. */
  lemma StripFormatted(a: string, b: string, c: string, d: string, e: string)
    requires Clean(a) && Clean(b) && Clean(c) && Clean(d) && Clean(e)
    ensures Strip(a + "." + b + "." + c + "/" + d + "-" + e) == a + b + c + d + e
  {
    StripKeepsClean(a);
    StripKeepsClean(b);
    StripKeepsClean(c);
    StripKeepsClean(d);
    StripKeepsClean(e);
    StripAroundSeparator(a, '.', b);
    StripAroundSeparator(a + "." + b, '.', c);
    StripAroundSeparator(a + "." + b + "." + c, '/', d);
    StripAroundSeparator(a + "." + b + "." + c + "/" + d, '-', e);
  }

  lemma ExampleGroups(cnpj: string)
    requires cnpj == "12.345.678/0001-99"
    ensures cnpj == "12" + "." + "345" + "." + "678" + "/" + "0001" + "-" + "99"
  {
  }

  lemma ExampleStrip()
    ensures Strip("12" + "." + "345" + "." + "678" + "/" + "0001" + "-" + "99") == "12345678000199"
  {
    StripFormatted("12", "345", "678", "0001", "99");
    assert "12" + "345" + "678" + "0001" + "99" == "12345678000199";
  }

  /** The formatted identifier "12.345.678/0001-99" becomes "12345678000199". */
  lemma NormalizeExample(cnpj: string)
    requires cnpj == "12.345.678/0001-99"
    ensures Normalize(cnpj) == "12345678000199"
  {
    NormalizeIsStrip(cnpj);
    ExampleGroups(cnpj);
    ExampleStrip();
  }
}
