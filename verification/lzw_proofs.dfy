/** Properties of the LZW expansion in module Blitzortung: a dictionary-free
    reference definition of each symbol's phrase, the shape of the dictionary
    after every step, and the consequences the decoder's callers rely on. */
module LzwProofs {
  import opened Blitzortung

  /** The phrase symbol `k` of `data` expands to, defined without a
      dictionary: the code `FirstCode + j` names phrase `j` extended by the
      first symbol of phrase `j + 1`, and a code that has not been assigned
      yet names the previous phrase extended by its own first symbol. */
  function RefPhrase(data: string, k: nat): (p: string)
    requires k < |data|
    ensures |p| > 0
    decreases k
  {
    if k == 0 then [data[0]]
    else
      var c := data[k] as int;
      if c < FirstCode then [data[k]]
      else if c - FirstCode < k - 1 then
        RefPhrase(data, c - FirstCode) + [RefPhrase(data, c - FirstCode + 1)[0]]
      else
        RefPhrase(data, k - 1) + [RefPhrase(data, k - 1)[0]]
  }

  /** The phrases of symbols `0..k`, in input order, joined. */
  function RefOutput(data: string, k: nat): (out: string)
    requires k < |data|
    decreases k
  {
    if k == 0 then RefPhrase(data, 0) else RefOutput(data, k - 1) + RefPhrase(data, k)
  }

  /** The dictionary entry the reference assigns to code `FirstCode + j`:
      phrase `j` followed by the first symbol of phrase `j + 1`. */
  function RefEntry(data: string, j: nat): string
    requires j + 1 < |data|
  {
    RefPhrase(data, j) + [RefPhrase(data, j + 1)[0]]
  }

  /** The loop invariant of the expansion after symbols `1..k`: the next code
      is `FirstCode + k`; the dictionary holds exactly the codes
      `FirstCode .. FirstCode + k - 1`, the entry for `FirstCode + j` being
      phrase `j` followed by the first symbol of phrase `j + 1`; the previous
      phrase is phrase `k`; and the output is phrases `0..k` in order. */
  ghost predicate Invariant(data: string, k: nat, d: Decoder)
    requires k < |data|
  {
    && d.next == FirstCode + k
    && (forall c :: c in d.dict <==> FirstCode <= c < FirstCode + k)
    && (forall c :: c in d.dict ==>
          FirstCode <= c < FirstCode + k && d.dict[c] == RefEntry(data, c - FirstCode))
    && d.prev == RefPhrase(data, k)
    && d.out == RefOutput(data, k)
  }

  /** One iteration keeps the invariant. */
  lemma StepKeepsInvariant(data: string, k: nat, d: Decoder)
    requires 0 < k < |data|
    requires d.WellFormed() && Invariant(data, k - 1, d)
    ensures Invariant(data, k, Step(d, data[k]))
  {
    StepPhrase(data, k, d);
    StepEntries(data, k, d);
  }

  /** The phrase one iteration resolves is the reference phrase. */
  lemma StepPhrase(data: string, k: nat, d: Decoder)
    requires 0 < k < |data|
    requires d.WellFormed() && Invariant(data, k - 1, d)
    ensures Step(d, data[k]).prev == RefPhrase(data, k)
  {
    var c := data[k] as int;
    if c < FirstCode {
    } else if c - FirstCode < k - 1 {
      assert c in d.dict;
    } else {
      assert c !in d.dict;
    }
  }

  /** Every entry after one iteration, the new one included, is the
      reference entry for its code. */
  lemma StepEntries(data: string, k: nat, d: Decoder)
    requires 0 < k < |data|
    requires d.WellFormed() && Invariant(data, k - 1, d)
    requires Step(d, data[k]).prev == RefPhrase(data, k)
    ensures forall c' :: c' in Step(d, data[k]).dict ==>
      FirstCode <= c' < FirstCode + k && Step(d, data[k]).dict[c'] == RefEntry(data, c' - FirstCode)
  {
    var d' := Step(d, data[k]);
    forall c' | c' in d'.dict
      ensures FirstCode <= c' < FirstCode + k && d'.dict[c'] == RefEntry(data, c' - FirstCode)
    {
      if c' != d.next {
        assert d'.dict[c'] == d.dict[c'];
      }
    }
  }

  lemma {:induction false} RunInvariant(data: string, k: nat)
    requires k < |data|
    ensures Invariant(data, k, Run(data, k))
    decreases k
  {
    if k > 0 {
      RunInvariant(data, k - 1);
      StepKeepsInvariant(data, k, Run(data, k - 1));
    }
  }

  /** Decoding equals the dictionary-free reference: the first symbol
      followed by every symbol's phrase in input order. */
  lemma DecodeMatchesReference(input: string)
    requires |input| > 0
    ensures Decode(input) == RefOutput(input, LastIndex(input))
  {
    RunInvariant(input, LastIndex(input));
  }

  /** Codes are handed out consecutively: after `k` symbols past the first,
      the dictionary keys are exactly `256 .. 256 + k - 1` and the next
      code is `256 + k`. */
  lemma CodesConsecutive(data: string, k: nat)
    requires k < |data|
    ensures Run(data, k).next == 256 + k
    ensures forall c :: c in Run(data, k).dict <==> 256 <= c < 256 + k
  {
    RunInvariant(data, k);
  }

  /** Each new entry is the previous phrase extended by one symbol, the first
      symbol of the phrase just resolved; so it is one longer than the
      previous phrase, and every resolved phrase is non-empty. */
  lemma EntryExtendsPreviousPhrase(data: string, k: nat)
    requires 0 < k < |data|
    ensures |Run(data, k).prev| > 0
    ensures 256 + k - 1 in Run(data, k).dict
    ensures Run(data, k).dict[256 + k - 1] == Run(data, k - 1).prev + [Run(data, k).prev[0]]
    ensures |Run(data, k).dict[256 + k - 1]| == |Run(data, k - 1).prev| + 1
  {
    RunInvariant(data, k - 1);
  }

  /** A code at or above 256 that is not in the dictionary (the code about to
      be assigned, or any larger one) resolves to the previous phrase followed
      by its own first symbol; a code already assigned resolves to its entry. */
  lemma UnassignedCodeFallsBack(data: string, k: nat)
    requires 0 < k < |data|
    requires data[k] as int >= 256 + k - 1
    ensures Run(data, k).prev == Run(data, k - 1).prev + [Run(data, k - 1).prev[0]]
  {
    RunInvariant(data, k - 1);
    assert data[k] as int !in Run(data, k - 1).dict;
  }

  lemma AssignedCodeResolves(data: string, k: nat)
    requires 0 < k < |data|
    requires 256 <= data[k] as int < 256 + k - 1
    ensures data[k] as int in Run(data, k - 1).dict
    ensures Run(data, k).prev == Run(data, k - 1).dict[data[k] as int]
  {
    RunInvariant(data, k - 1);
    assert data[k] as int in Run(data, k - 1).dict;
  }

  /** The self-referential edge case: code 256 as the second symbol has not
      been assigned yet, so it expands to the first symbol twice. */
  lemma SecondSymbolSelfReference(a: char)
    ensures Decode([a, 256 as char]) == [a, a, a]
  {
    var data := [a, 256 as char];
    assert Run(data, 1) == Step(Start(a), 256 as char);
  }

  /** If every code point is a literal, decoding is the identity. */
  lemma {:induction false} LiteralsDecodeToThemselves(input: string)
    requires forall i :: 0 <= i < |input| ==> input[i] as int < 256
    ensures Decode(input) == input
  {
    if |input| > 0 {
      LiteralRun(input, LastIndex(input));
    }
  }

  lemma {:induction false} LiteralRun(data: string, k: nat)
    requires k < |data|
    requires forall i :: 0 <= i < |data| ==> data[i] as int < 256
    ensures Run(data, k).out == data[..k + 1]
    decreases k
  {
    if k > 0 {
      LiteralRun(data, k - 1);
      assert data[..k + 1] == data[..k] + [data[k]];
    }
  }

  /** Every symbol expands to at least one symbol, so the output is never
      shorter than the input. */
  lemma DecodeNotShorter(input: string)
    ensures |Decode(input)| >= |input|
  {
    if |input| > 0 {
      OutputGrows(input, LastIndex(input));
    }
  }

  lemma {:induction false} OutputGrows(data: string, k: nat)
    requires k < |data|
    ensures |Run(data, k).out| >= k + 1
    decreases k
  {
    if k > 0 {
      OutputGrows(data, k - 1);
    }
  }

  /** The symbols a phrase may be built from: the first input symbol and the
      input's literals. */
  predicate FromInput(data: string, x: char)
  {
    (|data| > 0 && x == data[0]) || (x as int < FirstCode && x in data)
  }

  lemma {:induction false} PhraseFromInput(data: string, k: nat)
    requires k < |data|
    ensures forall i :: 0 <= i < |RefPhrase(data, k)| ==> FromInput(data, RefPhrase(data, k)[i])
    decreases k
  {
    if k > 0 {
      var c := data[k] as int;
      if c < FirstCode {
      } else if c - FirstCode < k - 1 {
        PhraseFromInput(data, c - FirstCode);
        PhraseFromInput(data, c - FirstCode + 1);
      } else {
        PhraseFromInput(data, k - 1);
      }
    }
  }

  lemma {:induction false} OutputFromInput(data: string, k: nat)
    requires k < |data|
    ensures forall i :: 0 <= i < |RefOutput(data, k)| ==> FromInput(data, RefOutput(data, k)[i])
    decreases k
  {
    PhraseFromInput(data, k);
    if k > 0 {
      OutputFromInput(data, k - 1);
    }
  }

  /** Decoding never invents a code point: every output symbol is the first
      input symbol (emitted verbatim, whatever its code) or one of the input's
      literals (code below 256). */
  lemma DecodeUsesOnlyInputSymbols(input: string)
    ensures forall i :: 0 <= i < |Decode(input)| ==> FromInput(input, Decode(input)[i])
  {
    if |input| > 0 {
      DecodeMatchesReference(input);
      OutputFromInput(input, LastIndex(input));
    }
  }

  /** When the first symbol is a literal, dictionary codes never appear in
      the expanded text: every output symbol is below 256. */
  lemma DecodeLiteralStartStaysLiteral(input: string)
    requires |input| > 0 && input[0] as int < FirstCode
    ensures forall i :: 0 <= i < |Decode(input)| ==> Decode(input)[i] as int < FirstCode
  {
    DecodeUsesOnlyInputSymbols(input);
    forall i | 0 <= i < |Decode(input)|
      ensures Decode(input)[i] as int < FirstCode
    {
      assert FromInput(input, Decode(input)[i]);
    }
  }

  /** A first symbol at or above 256 is not a dictionary reference: it is
      emitted verbatim, and a repeat of it takes the fallback branch. */
  lemma HighFirstSymbolPassesThrough()
    ensures Decode([256 as char, 256 as char]) == [256 as char, 256 as char, 256 as char]
  {
    SecondSymbolSelfReference(256 as char);
  }

  /** The imperative loop computes the reference expansion. */
  method DecodeReferenceLoop(input: string) returns (result: string)
    ensures |input| > 0 ==> result == RefOutput(input, LastIndex(input))
    ensures |input| == 0 ==> result == []
  {
    result := DecodeLoop(input);
    if |input| > 0 {
      DecodeMatchesReference(input);
    }
  }
}
