/** Phone-number normalisation: `raw.replace(/\s/g, "")` (index.js lines 33 and 162). */
module Phone {

  /** JavaScript's `\s` class: the ECMAScript WhiteSpace and LineTerminator
      code points. */
  predicate IsWhitespace(c: char)
  {
    || c == '\t' || c == '\n' || c == '\U{000B}' || c == '\U{000C}' || c == '\r'
    || c == ' ' || c == '\U{00A0}' || c == '\U{1680}'
    || ('\U{2000}' <= c <= '\U{200A}')
    || c == '\U{2028}' || c == '\U{2029}' || c == '\U{202F}' || c == '\U{205F}'
    || c == '\U{3000}' || c == '\U{FEFF}'
  }

  ghost predicate NoWhitespace(s: string)
  {
    forall i :: 0 <= i < |s| ==> !IsWhitespace(s[i])
  }

  /** The number with every whitespace character removed, all others kept in order. */
  function StripWhitespace(s: string): (r: string)
    ensures |r| <= |s|
    ensures NoWhitespace(r)
  {
    if |s| == 0 then []
    else if IsWhitespace(s[0]) then StripWhitespace(s[1..])
    else [s[0]] + StripWhitespace(s[1..])
  }

  /** Stripping distributes over concatenation: no character is moved across
      another, so the kept characters stay in their original order. */
  lemma {:induction false} StripConcat(a: string, b: string)
    ensures StripWhitespace(a + b) == StripWhitespace(a) + StripWhitespace(b)
  {
    if |a| == 0 {
      assert a + b == b;
    } else {
      assert (a + b)[1..] == a[1..] + b;
      StripConcat(a[1..], b);
    }
  }

  /** A one-character number is dropped exactly when it is whitespace. */
  lemma StripSingle(c: char)
    ensures StripWhitespace([c]) == if IsWhitespace(c) then [] else [c]
  {
    assert [c][1..] == [];
  }

  /** A string is left unchanged exactly when it holds no whitespace. */
  lemma {:induction false} StripUnchangedIff(s: string)
    ensures StripWhitespace(s) == s <==> NoWhitespace(s)
  {
    if NoWhitespace(s) && |s| > 0 {
      assert NoWhitespace(s[1..]) by {
        forall i | 0 <= i < |s[1..]| ensures !IsWhitespace(s[1..][i]) {
          assert s[1..][i] == s[i + 1];
        }
      }
      StripUnchangedIff(s[1..]);
      assert s == [s[0]] + s[1..];
    }
  }

  /** Normalising an already normalised number changes nothing. */
  lemma StripIdempotent(s: string)
    ensures StripWhitespace(StripWhitespace(s)) == StripWhitespace(s)
  {
    StripUnchangedIff(StripWhitespace(s));
  }

  /** Every non-whitespace character occurs as often after stripping as
      before; no whitespace character survives. */
  lemma {:induction false} StripCounts(s: string, c: char)
    ensures IsWhitespace(c) ==> multiset(StripWhitespace(s))[c] == 0
    ensures !IsWhitespace(c) ==> multiset(StripWhitespace(s))[c] == multiset(s)[c]
  {
    if |s| > 0 {
      StripCounts(s[1..], c);
      assert s == [s[0]] + s[1..];
      assert multiset(s) == multiset([s[0]]) + multiset(s[1..]);
    }
  }

  /** A group of digits followed by one separating space loses just the space. */
  lemma StripGroup(g: string, rest: string)
    requires NoWhitespace(g)
    ensures StripWhitespace(g + " " + rest) == g + StripWhitespace(rest)
  {
    StripConcat(g + " ", rest);
    StripConcat(g, " ");
    StripUnchangedIff(g);
    StripSingle(' ');
  }

  /** A spaced E.164 number. The number is a parameter fixed by `requires`
      because a literal argument makes the verifier unfold the recursion eagerly. */
  lemma SpacedNumberExample(s: string)
    requires s == "+1 415 555 0100"
    ensures StripWhitespace(s) == "+14155550100"
  {
    var g1, g2, g3, g4 := "+1", "415", "555", "0100";
    assert s == g1 + " " + (g2 + " " + (g3 + " " + g4));
    assert NoWhitespace(g4);
    StripUnchangedIff(g4);
    assert NoWhitespace(g3);
    StripGroup(g3, g4);
    assert NoWhitespace(g2);
    StripGroup(g2, g3 + " " + g4);
    assert NoWhitespace(g1);
    StripGroup(g1, g2 + " " + (g3 + " " + g4));
    assert StripWhitespace(s) == g1 + (g2 + (g3 + g4));
    assert g1 + (g2 + (g3 + g4)) == "+14155550100";
  }
}
