/** Concrete inputs for `parseInt`, the port fallback and the deploy
    command, and small instances of the exec tokenizer. */
module Samples {
  import opened Seqs
  import opened Text
  import opened Numbers
  import opened Render
  import Collect

  /** `"8080"` reads as 8080. */
  lemma ParseSample()
    ensures ParseInt("8080") == Some(8080)
  {
    DecimalSample();
    NoLeadingSpace("8080");
  }

  lemma DecimalSample()
    ensures ParseDecimal("8080") == Some(8080)
  {
    var ds := "8080";
    assert AllDigits(ds) by {
      assert ds[0] == '8' && ds[1] == '0' && ds[2] == '8' && ds[3] == '0';
    }
    assert ds[..3] == "808" && ds[..3][..2] == "80" && ds[..3][..2][..1] == "8";
    assert DigitsValue("8") == 8 by {
      assert "8"[..0] == "";
    }
    assert DigitsValue("80") == 80;
    assert DigitsValue("808") == 808;
    assert DigitsValue(ds) == 8080;
    ParseDigits(ds, "");
    assert ds + "" == ds;
  }

  /** Leading white space, an ASCII space or an ideographic one, is
      skipped, and a plus sign is accepted. */
  lemma ParseSignSpaceSamples()
    ensures ParseInt(" 8080") == Some(8080)
    ensures ParseInt("\U{3000}8080") == Some(8080)
    ensures ParseInt("+8080") == Some(8080)
  {
    SampleTexts();
    ParseSample();
    DecimalSample();
    SpaceSkipped(' ', "8080");
    SpaceSkipped('\U{3000}', "8080");
    PlusPrefix("8080", 8080);
  }

  lemma SampleTexts()
    ensures [' '] + "8080" == " 8080" && ['\U{3000}'] + "8080" == "\U{3000}8080"
    ensures "+" + "8080" == "+8080" && ['a'] + "5" == "a5"
  {
  }

  /** A letter before the digits makes the whole text `NaN`. */
  lemma LetterFirstSample()
    ensures ParseInt("a5").None?
  {
    SampleTexts();
    NoNumberStart('a', "5");
  }

  /** `parseInt("8080") || 80` keeps the port. */
  lemma PortSample()
    ensures PortOr80("8080") == 8080
  {
    ParseSample();
  }

  /** Text without digits falls back to port 80. */
  lemma PortFallbackSample()
    ensures PortOr80("abc") == 80
    ensures PortOr80("") == 80
  {
    NoDigitsPort("");
    assert "abc"[0] == 'a' && "abc"[1] == 'b' && "abc"[2] == 'c';
    NoDigitsPort("abc");
  }

  lemma NoDigitsPort(s: string)
    requires forall i :: 0 <= i < |s| ==> !IsDigit(s[i])
    ensures PortOr80(s) == 80
  {
  }

  lemma TokenizeEmpty()
    ensures Collect.Tokenize("") == []
  {
    assert Split("", ',') == [""];
    assert Map(Trim, [""]) == [""];
  }

  /** A comma-free, trimmed, non-empty command is one token. */
  lemma TokenizeOne(t: string)
    requires t != "" && ',' !in t && IsTrimmed(t)
    ensures Collect.Tokenize(t) == [t]
  {
    Collect.TokenizeJoin([t]);
  }

  /** One space at either end of a trimmed word is trimmed away. */
  lemma TrimPadded(t: string)
    requires t != "" && IsTrimmed(t)
    ensures Trim(" " + t + " ") == t
  {
    var b := " " + t + " ";
    var u := t + " ";
    assert b[1..] == u;
    assert TrimStart(b) == TrimStart(u);
    assert u[..|t|] == t;
    assert TrimEnd(u) == TrimEnd(t);
  }

  /** A piece with one space at either end becomes one trimmed token. */
  lemma TrimmedPiece(b: string, t: string)
    requires b == " " + t + " " && t != "" && ',' !in t && IsTrimmed(t)
    ensures Collect.Tokenize(b) == [t]
  {
    assert ',' !in b by {
      assert forall i :: 0 <= i < |b| ==> b[i] == ' ' || b[i] in t;
    }
    SplitNone(b, ',');
    TrimPadded(t);
    assert Map(Trim, [b]) == [t];
  }

  /** `sh, -c` is the two tokens `sh` and `-c`: the space after the comma
      is trimmed away. */
  lemma CommandSample()
    ensures Collect.Tokenize("sh, -c") == ["sh", "-c"]
  {
    CommandTexts();
    SpacedPair("sh", "-c");
  }

  lemma CommandTexts()
    ensures "sh" + "," + (" " + "-c") == "sh, -c"
    ensures "sh" != "" && ',' !in "sh" && IsTrimmed("sh")
    ensures "-c" != "" && ',' !in "-c" && IsTrimmed("-c")
  {
  }

  /** Two words with a space after the comma are two tokens. */
  lemma SpacedPair(a: string, b: string)
    requires a != "" && ',' !in a && IsTrimmed(a)
    requires b != "" && ',' !in b && IsTrimmed(b)
    ensures Collect.Tokenize(a + "," + (" " + b)) == [a, b]
  {
    var sb := " " + b;
    SpacedCommaFree(b);
    LeadingSpaceTrimmed(b);
    assert Collect.Tokenize(a) == [a] by {
      Collect.TokenizePiece(a);
    }
    assert Collect.Tokenize(sb) == [b] by {
      Collect.TokenizePiece(sb);
    }
    Collect.TokenizeConcat(a, sb);
  }

  lemma SpacedCommaFree(b: string)
    requires ',' !in b
    ensures ',' !in " " + b
  {
    assert forall i :: 1 <= i < |" " + b| ==> (" " + b)[i] == b[i - 1];
  }

  /** One leading space is trimmed away. */
  lemma LeadingSpaceTrimmed(b: string)
    requires b != "" && IsTrimmed(b)
    ensures Trim(" " + b) == b
  {
    var sb := " " + b;
    assert sb[1..1 + |b|] == b;
    assert SpaceAround(sb, b, 1);
    TrimUnique(sb, b, 1);
  }

  /** `kubectl apply -f my-pod.yaml` for the default name. */
  lemma ApplySample()
    ensures ApplyCommand("my-pod") == "kubectl apply -f my-pod.yaml"
  {
  }
}
