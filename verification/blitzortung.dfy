/** The Blitzortung wire vocabulary: server list, start-streaming handshake,
    the strike record a decoded frame describes, and the LZW expansion that
    turns a compressed text frame back into JSON text. */
module Blitzortung {
  import opened Prelude

  /** The equivalent servers a client may pick from; the consumer always takes the first. */
  const Servers: seq<string> := [
    "wss://ws1.blitzortung.org",
    "wss://ws7.blitzortung.org",
    "wss://ws8.blitzortung.org"
  ]

  /** The control frame that asks the server to start streaming, as a byte string. */
  const Handshake: seq<byte> := [123, 34, 97, 34, 58, 49, 49, 49, 125]

  /** The handshake is the nine ASCII bytes of the JSON text {"a":111}. */
  lemma HandshakeIsAsciiJson()
    ensures |Handshake| == 9
    ensures Handshake == AsciiBytes("{\"a\":111}")
  {
  }

  /** Upper bound (exclusive) of Rust's `u64`. */
  const U64Limit: int := 0x1_0000_0000_0000_0000

  type u64 = x: int | 0 <= x < U64Limit

  /** A decoded strike. Only the fields the consumer computes with are modelled:
      the microsecond timestamp, and `location`, the already formatted
      latitude/longitude/altitude text (floating point is not modelled). */
  datatype Strike = Strike(time: u64, location: string)

  /* ---------------------------------------------------------------------
     LZW expansion over Unicode code points.
     Code points below 256 are literals; codes from 256 upward name
     dictionary phrases, one new code per processed symbol.
     --------------------------------------------------------------------- */

  /** The first dictionary code. */
  const FirstCode: int := 256

  /** Decoder state after some prefix of the input has been processed:
      the dictionary, the next code to assign, the previous phrase and the
      output so far. */
  datatype Decoder = Decoder(dict: map<int, string>, next: int, prev: string, out: string)
  {
    /** The previous phrase and every dictionary phrase are non-empty,
        so taking the first symbol of either never goes out of bounds. */
    predicate WellFormed()
    {
      |prev| > 0 && forall c :: c in dict ==> |dict[c]| > 0
    }
  }

  /** The state once only the first symbol has been seen: it is emitted
      verbatim and becomes the previous phrase. */
  function Start(first: char): (d: Decoder)
    ensures d.WellFormed()
    ensures d.dict == map[] && d.next == FirstCode
    ensures d.prev == [first] && d.out == [first]
  {
    Decoder(map[], FirstCode, [first], [first])
  }

  /** The phrase a symbol stands for: the literal itself below 256, else the
      dictionary entry, else (an unassigned code) the previous phrase
      followed by its own first symbol. */
  function Resolve(dict: map<int, string>, prev: string, c: char): (phrase: string)
    requires |prev| > 0
    requires forall k :: k in dict ==> |dict[k]| > 0
    ensures |phrase| > 0
    ensures c as int < FirstCode ==> phrase == [c]
    ensures c as int >= FirstCode && c as int !in dict ==> phrase == prev + [prev[0]]
  {
    if c as int < FirstCode then [c]
    else if c as int in dict then dict[c as int]
    else prev + [prev[0]]
  }

  /** One iteration of the expansion loop. */
  function Step(d: Decoder, c: char): (d': Decoder)
    requires d.WellFormed()
    ensures d'.WellFormed()
    ensures d'.next == d.next + 1
    ensures d'.dict.Keys == d.dict.Keys + {d.next}
    ensures d'.dict[d.next] == d.prev + [d'.prev[0]]
    ensures forall k :: k in d.dict && k != d.next ==> d'.dict[k] == d.dict[k]
    ensures d'.out == d.out + d'.prev
  {
    var phrase := Resolve(d.dict, d.prev, c);
    Decoder(d.dict[d.next := d.prev + [phrase[0]]], d.next + 1, phrase, d.out + phrase)
  }

  /** The state after the symbols `data[1..k+1]` have been processed. */
  function Run(data: string, k: nat): (d: Decoder)
    requires k < |data|
    ensures d.WellFormed()
    decreases k
  {
    if k == 0 then Start(data[0]) else Step(Run(data, k - 1), data[k])
  }

  /** The position of the last symbol of a non-empty input. */
  function LastIndex(input: string): (k: nat)
    requires |input| > 0
    ensures k < |input|
  {
    |input| - 1
  }

  /** Expand a compressed frame. The empty frame expands to the empty text;
      no input makes the expansion fail. */
  function Decode(input: string): (r: string)
    ensures |input| == 0 ==> r == []
    ensures |input| > 0 ==> |r| > 0 && r[0] == input[0]
  {
    if |input| == 0 then [] else RunKeepsFirst(input, LastIndex(input)); Run(input, LastIndex(input)).out
  }

  /** The output always begins with the first symbol. */
  lemma {:induction false} RunKeepsFirst(data: string, k: nat)
    requires k < |data|
    ensures |Run(data, k).out| > 0 && Run(data, k).out[0] == data[0]
    decreases k
  {
    if k > 0 {
      RunKeepsFirst(data, k - 1);
    }
  }

  /** One loop iteration, written out branch by branch, is `Step`. */
  lemma StepResolves(d: Decoder, c: char, phrase: string)
    requires d.WellFormed()
    requires c as int < FirstCode ==> phrase == [c]
    requires c as int >= FirstCode && c as int in d.dict ==> phrase == d.dict[c as int]
    requires c as int >= FirstCode && c as int !in d.dict ==> phrase == d.prev + [d.prev[0]]
    ensures |phrase| > 0
    ensures Step(d, c) == Decoder(d.dict[d.next := d.prev + [phrase[0]]], d.next + 1, phrase, d.out + phrase)
  {
  }

  /** The expansion written as the imperative loop the decoder runs: a
      mutable dictionary, previous phrase, result buffer and code counter. */
  method DecodeLoop(input: string) returns (result: string)
    ensures result == Decode(input)
  {
    if |input| == 0 {
      return [];
    }
    var dict: map<int, string> := map[];
    var prev := [input[0]];
    result := [input[0]];
    var code := FirstCode;
    for i := 1 to |input|
      invariant Decoder(dict, code, prev, result) == Run(input, i - 1)
    {
      ghost var before := Decoder(dict, code, prev, result);
      var phrase;
      if input[i] as int < FirstCode {
        phrase := [input[i]];
      } else if input[i] as int in dict {
        phrase := dict[input[i] as int];
      } else {
        phrase := prev + [prev[0]];
      }
      result := result + phrase;
      dict := dict[code := prev + [phrase[0]]];
      code := code + 1;
      prev := phrase;
      assert Decoder(dict, code, prev, result) == Run(input, i) by {
        StepResolves(before, input[i], phrase);
        assert Run(input, i) == Step(before, input[i]);
      }
    }
    assert LastIndex(input) == |input| - 1;
  }
}
