/**
 * An independent description of what the display shows while a number is typed: the keys
 * typed so far, appended to the display, with every "." after the first one dropped and
 * every redundant leading "0" stripped. Typing digits and "." one key at a time
 * (`inputDigit` and `inputDecimal` in frontend/src/App.tsx) agrees with it.
 */
module EntryReference {
  import opened CalculatorModel
  import CalculatorProofs

  /** The labels of `keys`, written one after another. */
  function Concat(keys: seq<string>): string {
    if keys == [] then "" else Concat(keys[..|keys| - 1]) + keys[|keys| - 1]
  }

  /** The keys as keypad presses. */
  function Keys(keys: seq<string>): (inputs: seq<Input>)
    ensures |inputs| == |keys|
  {
    seq(|keys|, i requires 0 <= i < |keys| => Key(keys[i]))
  }

  /** `s` with every "." after the first one removed. */
  function DropLaterDots(s: string): string {
    if s == [] then []
    else
      var init, c := s[..|s| - 1], s[|s| - 1];
      DropLaterDots(init) + (if c == '.' && '.' in init then [] else [c])
  }

  /** `s` with each "0" removed that stands first and is directly followed by a digit. */
  function StripLeadingZeros(s: string): string
    decreases |s|
  {
    if |s| >= 2 && s[0] == '0' && IsDigitChar(s[1]) then StripLeadingZeros(s[1..]) else s
  }

  function Canonical(s: string): string {
    StripLeadingZeros(DropLaterDots(s))
  }

  /** Keys that go to `inputDigit` or `inputDecimal`. */
  predicate EntryKeys(keys: seq<string>) {
    forall i :: 0 <= i < |keys| ==> IsDigitKey(keys[i]) || keys[i] == "."
  }

  // ---------------------------------------------------------------------------
  // Facts about the reference

  lemma DropLaterDotsSnoc(s: string, c: char)
    ensures DropLaterDots(s + [c]) == DropLaterDots(s) + (if c == '.' && '.' in s then [] else [c])
  {
  }

  lemma {:induction false} DropLaterDotsKeepsDot(s: string)
    ensures '.' in DropLaterDots(s) <==> '.' in s
    ensures |s| >= 1 ==> |DropLaterDots(s)| >= 1
  {
    if s != [] {
      var init, c := s[..|s| - 1], s[|s| - 1];
      assert s == init + [c];
      DropLaterDotsKeepsDot(init);
    }
  }

  lemma {:induction false} StripLeadingZerosKeepsDot(s: string)
    ensures '.' in StripLeadingZeros(s) <==> '.' in s
    decreases |s|
  {
    if |s| >= 2 && s[0] == '0' && IsDigitChar(s[1]) {
      assert s == [s[0]] + s[1..];
      StripLeadingZerosKeepsDot(s[1..]);
    }
  }

  /** Appending a character either extends the stripped string by it, or, when all that is
      left is "0" and a digit follows, replaces that "0" by the digit. */
  lemma {:induction false} StripLeadingZerosSnoc(s: string, c: char)
    requires |s| >= 1
    ensures StripLeadingZeros(s + [c]) ==
            if StripLeadingZeros(s) == "0" && IsDigitChar(c) then [c] else StripLeadingZeros(s) + [c]
    decreases |s|
  {
    var t := s + [c];
    assert t[0] == s[0];
    if |s| >= 2 {
      assert t[1] == s[1];
      if s[0] == '0' && IsDigitChar(s[1]) {
        assert t[1..] == s[1..] + [c];
        StripLeadingZerosSnoc(s[1..], c);
      }
    } else {
      assert t == [s[0], c];
      if s[0] == '0' && IsDigitChar(c) {
        assert t[1..] == [c];
      }
    }
  }

  lemma {:induction false} DropLaterDotsOfOneDot(s: string)
    requires AtMostOneDot(s)
    ensures DropLaterDots(s) == s
  {
    if s != [] {
      var init, c := s[..|s| - 1], s[|s| - 1];
      assert s == init + [c];
      assert AtMostOneDot(init) by {
        forall i, j | 0 <= i < j < |init| && init[i] == '.' ensures init[j] != '.' {
          assert s[i] == init[i] && s[j] == init[j];
        }
      }
      DropLaterDotsOfOneDot(init);
      if '.' in init {
        var k :| 0 <= k < |init| && init[k] == '.';
        assert s[k] == init[k];
      }
    }
  }

  /** A well-formed entry is its own canonical form. */
  lemma CanonicalOfWellFormed(s: string)
    requires WellFormedEntry(s)
    ensures Canonical(s) == s
  {
    DropLaterDotsOfOneDot(s);
  }

  lemma ConcatSnoc(keys: seq<string>, k: string)
    ensures Concat(keys + [k]) == Concat(keys) + k
  {
  }

  // ---------------------------------------------------------------------------
  // Typing agrees with the reference

  lemma DecimalEntryStep<N>(s: State<N>, x: string)
    requires |x| >= 1
    requires !s.waitingForSecondOperand && s.display == Canonical(x)
    ensures InputDecimal(s) == s.(display := Canonical(x + "."))
  {
    var d := DropLaterDots(x);
    DropLaterDotsKeepsDot(x);
    StripLeadingZerosKeepsDot(d);
    assert x + "." == x + ['.'];
    DropLaterDotsSnoc(x, '.');
    if '.' in x {
      assert DropLaterDots(x + ".") == d;
    } else {
      assert DropLaterDots(x + ".") == d + ['.'];
      StripLeadingZerosSnoc(d, '.');
    }
  }

  lemma DigitEntryStep<N>(s: State<N>, x: string, c: char)
    requires |x| >= 1 && IsDigitChar(c)
    requires !s.waitingForSecondOperand && s.display == Canonical(x)
    ensures InputDigit(s, [c]) == s.(display := Canonical(x + [c]))
  {
    var d := DropLaterDots(x);
    DropLaterDotsKeepsDot(x);
    DropLaterDotsSnoc(x, c);
    assert DropLaterDots(x + [c]) == d + [c];
    StripLeadingZerosSnoc(d, c);
  }

  /** One more key: the display the handler produces is the canonical form of the text
      typed so far followed by that key. */
  lemma EntryStep<N>(num: Numerics<N>, backend: Backend<N>, s: State<N>, x: string, k: string)
    requires |x| >= 1
    requires !s.waitingForSecondOperand && s.display == Canonical(x)
    requires IsDigitKey(k) || k == "."
    ensures Press(num, backend, s, Key(k)) == s.(display := Canonical(x + k))
  {
    if k == "." {
      assert Dispatch(k) == Decimal;
      DecimalEntryStep(s, x);
    } else {
      assert Dispatch(k) == Digit(k);
      assert k == [k[0]];
      DigitEntryStep(s, x, k[0]);
    }
  }

  /** Typing digit and "." keys into a well-formed entry shows the canonical form of the
      entry followed by the keys, and changes nothing but the display. */
  lemma {:induction false} EntryMatchesReference<N>(num: Numerics<N>, backend: Backend<N>, s: State<N>, keys: seq<string>)
    requires !s.waitingForSecondOperand && WellFormedEntry(s.display)
    requires EntryKeys(keys)
    ensures Run(num, backend, s, Keys(keys)) == s.(display := Canonical(s.display + Concat(keys)))
    decreases |keys|
  {
    if keys == [] {
      CanonicalOfWellFormed(s.display);
      assert s.display + "" == s.display;
    } else {
      var init, k := keys[..|keys| - 1], keys[|keys| - 1];
      assert keys == init + [k];
      assert EntryKeys(init) by {
        forall i | 0 <= i < |init| ensures IsDigitKey(init[i]) || init[i] == "." {
          assert init[i] == keys[i];
        }
      }
      EntryMatchesReference(num, backend, s, init);
      assert Keys(keys) == Keys(init) + [Key(k)];
      CalculatorProofs.RunSnoc(num, backend, s, Keys(init), Key(k));
      var x := s.display + Concat(init);
      ConcatSnoc(init, k);
      assert s.display + Concat(keys) == x + k;
      var t := Run(num, backend, s, Keys(init));
      EntryStep(num, backend, t, x, k);
    }
  }

  /** From the display at mount, typing shows the keys typed with the leading "0"
      suppressed and only the first "." kept. */
  lemma EntryFromMount<N>(num: Numerics<N>, backend: Backend<N>, keys: seq<string>)
    requires EntryKeys(keys)
    ensures Run(num, backend, Initial(), Keys(keys)).display == Canonical("0" + Concat(keys))
  {
    EntryMatchesReference(num, backend, Initial(), keys);
  }

  /** Right after an operator, the first digit or "." starts a fresh number: the old display
      is discarded, and typing shows the keys as if typed into the display "0". */
  lemma EntryAfterOperator<N>(num: Numerics<N>, backend: Backend<N>, s: State<N>, keys: seq<string>)
    requires s.waitingForSecondOperand
    requires |keys| >= 1 && EntryKeys(keys)
    ensures Run(num, backend, s, Keys(keys)) ==
            s.(display := Canonical("0" + Concat(keys)), waitingForSecondOperand := false)
  {
    var start := s.(display := "0", waitingForSecondOperand := false);
    var k := keys[0];
    // the first key does to the pending state what it does to a display of "0"
    assert Press(num, backend, s, Key(k)) == Press(num, backend, start, Key(k)) by {
      if k == "." {
        assert Dispatch(k) == Decimal;
        assert '.' !in start.display;
      } else {
        assert Dispatch(k) == Digit(k);
      }
    }
    assert Keys(keys)[0] == Key(k) && Keys(keys)[1..] == Keys(keys[1..]);
    assert Run(num, backend, s, Keys(keys)) == Run(num, backend, start, Keys(keys));
    EntryMatchesReference(num, backend, start, keys);
  }

  /** Typing 1 . . 2 shows "1.2": the second "." is ignored. */
  lemma ScenarioSecondDotIgnored<N>(num: Numerics<N>, backend: Backend<N>)
    ensures Run(num, backend, Initial(), Keys(["1", ".", ".", "2"])).display == "1.2"
  {
    var s1 := Press(num, backend, Initial(), Key("1"));
    var s2 := Press(num, backend, s1, Key("."));
    assert s2.display == "1.";
    var s3 := Press(num, backend, s2, Key("."));
    assert s3 == s2;
    assert Keys(["1", ".", ".", "2"]) == [Key("1"), Key("."), Key("."), Key("2")];
    assert Run(num, backend, Initial(), [Key("1"), Key("."), Key("."), Key("2")])
        == Run(num, backend, s1, [Key("."), Key("."), Key("2")])
        == Run(num, backend, s2, [Key("."), Key("2")])
        == Run(num, backend, s3, [Key("2")]);
  }
}
