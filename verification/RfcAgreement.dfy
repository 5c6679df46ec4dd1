/** Where the checker and section 2 of RFC 4627 agree, and the three ways in which they do not. */
module RfcAgreement {
  import opened Wrappers
  import opened JsonGrammar
  import opened JsonDialects
  import opened JsonUnambiguous
  import opened JsonChecker
  import opened JsonCompleteness
  import opened JsonSoundness

  // ----- agreement

  /** An accepted text is one of the RFC exactly when its derivation has no decimal point without digits and no
    character above the last one. */
  lemma AcceptedIsRfc(depth: int, t: Text, p: Padded)
    requires depth >= 1 && Accepts(depth, START, t) && IsDocument(p) && PaddedText(p) == t
    ensures InRfc(t) <==> NoEmptyFraction(Numerals(p.value)) && NoWideBody(Bodies(p.value))
  {
    ValueDialects(p.value);
    if InRfc(t) {
      var q :| IsDocument(q, Rfc) && PaddedText(q) == t;
      ValueDialects(q.value);
      Unambiguous(p, q);
    } else {
      assert !IsDocument(p, Rfc);
    }
  }

  /** A text of the RFC is accepted exactly when it is nested at most depth-1 deep and its derivation has no exponent
    right after a bare 0. */
  lemma RfcIsAccepted(depth: int, t: Text, q: Padded)
    requires depth >= 1 && IsDocument(q, Rfc) && PaddedText(q) == t
    ensures Accepts(depth, START, t) <==> Nesting(q.value) <= depth - 1 && NoBareZeroExponent(Numerals(q.value))
  {
    ValueDialects(q.value);
    if Accepts(depth, START, t) {
      var p := Sound(depth, t);
      ValueDialects(p.value);
      Unambiguous(p, q);
    } else if IsDocument(q) && Nesting(q.value) <= depth - 1 {
      Complete(depth, q);
    }
  }

  // ----- a text for each way

  function OneInArray(v: Value): Padded {
    Padded([], Array(OneElement(Padded([], v, []))), [])
  }


  /** `[1.]` is accepted and is no text of the RFC. */
  lemma PointWithoutDigits()
    ensures Accepts(2, START, [91, 49, 46, 93]) && !InRfc([91, 49, 46, 93])
  {
    var n := Numeral(false, [49], Some([]), None);
    var p := OneInArray(Number(n));
    assert NumeralText(n) == [49, 46];
    assert PaddedText(p) == [91, 49, 46, 93];
    Complete(2, p);
    assert n in Numerals(p.value) && EmptyFraction(n);
    AcceptedIsRfc(2, [91, 49, 46, 93], p);
  }

  /** `[0e1]` is a text of the RFC and is refused at every depth. */
  lemma ExponentAfterZero(depth: int)
    requires depth >= 1
    ensures InRfc([91, 48, 101, 49, 93]) && !Accepts(depth, START, [91, 48, 101, 49, 93])
  {
    var n := Numeral(false, [48], None, Some(Exponent(101, [], [49])));
    var p := OneInArray(Number(n));
    assert NumeralText(n) == [48, 101, 49];
    assert PaddedText(p) == [91, 48, 101, 49, 93];
    assert n in Numerals(p.value) && BareZeroExponent(n);
    RfcIsAccepted(depth, [91, 48, 101, 49, 93], p);
  }

  /** A string with a character above the last one is accepted and is no text of the RFC. */
  lemma CharacterTooLarge()
    ensures Accepts(2, START, [91, 34, 0x110000, 34, 93]) && !InRfc([91, 34, 0x110000, 34, 93])
  {
    var b := [0x110000];
    var p := OneInArray(String(b));
    assert b[1..] == [];
    assert StringText(b) == [34, 0x110000, 34];
    assert PaddedText(p) == [91, 34, 0x110000, 34, 93];
    Complete(2, p);
    assert b in Bodies(p.value) && WideBody(b) by { assert b[0] > LAST_CHARACTER; }
    AcceptedIsRfc(2, [91, 34, 0x110000, 34, 93], p);
  }
}
