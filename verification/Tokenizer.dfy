/** The character-ratio tokenizer, over exact rationals. */
module Tokenizer {
  import opened Wrappers
  import opened Messages
  import opened Tokens

  const PER_MESSAGE_OVERHEAD := 4
  const PER_CONVERSATION_OVERHEAD := 3
  const SMALLEST_RATE := 0.000000001

  function MaxReal(a: real, b: real): real { if a < b then b else a }

  /** `isCjk` stands for the Unicode-name test on a character. */
  datatype CharApprox = CharApprox(isCjk: char -> bool, charsPerTokenAscii: real, charsPerTokenCjk: real) {

    function Cjk(text: string): nat {
      if text == "" then 0 else Cjk(text[..|text| - 1]) + (if isCjk(text[|text| - 1]) then 1 else 0)
    }

    function Rate(asciiChars: nat, cjkChars: nat): nat {
      var tokens := asciiChars as real / MaxReal(charsPerTokenAscii, SMALLEST_RATE)
                    + cjkChars as real / MaxReal(charsPerTokenCjk, SMALLEST_RATE) + 0.999;
      if tokens.Floor < 1 then 1 else tokens.Floor
    }

    function TextTokens(text: string): nat {
      if text == "" then 0 else Rate(Other(text), Cjk(text))
    }

    /** Characters that are not CJK. */
    function Other(text: string): nat {
      if text == "" then 0 else Other(text[..|text| - 1]) + (if isCjk(text[|text| - 1]) then 0 else 1)
    }

    method CountText(text: string) returns (r: nat)
      ensures r == TextTokens(text)
    {
      if text == "" {
        return 0;
      }
      var asciiChars, cjkChars := 0, 0;
      for i := 0 to |text|
        invariant asciiChars == Other(text[..i]) && cjkChars == Cjk(text[..i])
      {
        assert text[..i + 1][..i] == text[..i];
        if isCjk(text[i]) {
          cjkChars := cjkChars + 1;
        } else {
          asciiChars := asciiChars + 1;
        }
      }
      assert text[..|text|] == text;
      r := Rate(asciiChars, cjkChars);
    }

    function CallTokens(calls: seq<ToolCall>): nat {
      if calls == [] then 0
      else
        var call := calls[|calls| - 1];
        CallTokens(calls[..|calls| - 1]) + TextTokens(call.name) + TextTokens(call.arguments.rendered)
    }

    function MessageTokens(m: Message): nat {
      TextTokens(m.content) + PER_MESSAGE_OVERHEAD + CallTokens(m.toolCalls)
      + (if m.toolCallId.Some? && m.toolCallId.value != "" then TextTokens(m.toolCallId.value) else 0)
    }

    method CountMessage(m: Message) returns (total: nat)
      ensures total == MessageTokens(m)
    {
      total := CountText(m.content);
      total := total + PER_MESSAGE_OVERHEAD;
      for i := 0 to |m.toolCalls|
        invariant total == TextTokens(m.content) + PER_MESSAGE_OVERHEAD + CallTokens(m.toolCalls[..i])
      {
        assert m.toolCalls[..i + 1][..i] == m.toolCalls[..i];
        var name := CountText(m.toolCalls[i].name);
        var arguments := CountText(m.toolCalls[i].arguments.rendered);
        total := total + name + arguments;
      }
      assert m.toolCalls[..|m.toolCalls|] == m.toolCalls;
      if m.toolCallId.Some? && m.toolCallId.value != "" {
        var id := CountText(m.toolCallId.value);
        total := total + id;
      }
    }

    function SumTokens(ms: seq<Message>): nat {
      if ms == [] then 0 else SumTokens(ms[..|ms| - 1]) + MessageTokens(ms[|ms| - 1])
    }

    function MessagesTokens(ms: seq<Message>): int {
      SumTokens(ms) + PER_CONVERSATION_OVERHEAD
    }

    function Counting(): Counter {
      (ms: seq<Message>) => MessagesTokens(ms)
    }

    predicate DefaultRates() {
      charsPerTokenAscii == 4.0 && charsPerTokenCjk == 1.0
    }

    lemma {:induction false} CharactersPartition(text: string)
      ensures Other(text) + Cjk(text) == |text|
    {
      if text != "" {
        CharactersPartition(text[..|text| - 1]);
      }
    }

    /** Every character counts once, as what it is. */
    lemma CharactersByKind(text: string, c: char)
      ensures Cjk("") == 0 && Cjk(text + [c]) == Cjk(text) + if isCjk(c) then 1 else 0
      ensures Other("") == 0 && Other(text + [c]) == Other(text) + if isCjk(c) then 0 else 1
    {
      assert (text + [c])[..|text|] == text;
    }

    /** At any rates - those below a billionth count as that - a text costs what its characters cost, rounded
        up to the next token but for a thousandth, and at least one token; an empty text costs nothing. */
    lemma CostIsRoundedUp(text: string)
      ensures TextTokens("") == 0
      ensures var plain := if charsPerTokenAscii < 0.000000001 then 0.000000001 else charsPerTokenAscii;
              var cjk := if charsPerTokenCjk < 0.000000001 then 0.000000001 else charsPerTokenCjk;
              var cost, t := Other(text) as real / plain + Cjk(text) as real / cjk, TextTokens(text);
              text != "" ==> t >= 1 && cost - 0.001 < t as real && (t as real <= cost + 0.999 || t == 1)
    {
    }

    /** A row costs its text and four more, each call its name and its arguments, and a call id itself; a
        list costs its rows and three more. */
    lemma RowCosts(m: Message, calls: seq<ToolCall>, call: ToolCall, ms: seq<Message>)
      ensures m.toolCalls == [] && (m.toolCallId == None || m.toolCallId == Some("")) ==>
                MessageTokens(m) == TextTokens(m.content) + 4
      ensures m.toolCallId.Some? && m.toolCallId.value != "" ==>
                MessageTokens(m) == MessageTokens(m.(toolCallId := None)) + TextTokens(m.toolCallId.value)
      ensures MessageTokens(m.(toolCalls := calls + [call]))
              == MessageTokens(m.(toolCalls := calls)) + TextTokens(call.name) + TextTokens(call.arguments.rendered)
      ensures MessagesTokens([]) == 3 && MessagesTokens(ms + [m]) == MessagesTokens(ms) + MessageTokens(m)
    {
      assert (calls + [call])[..|calls|] == calls && (ms + [m])[..|ms|] == ms;
    }

    /** At the default rates a nonempty text costs one token per four plain characters,
        rounded up, plus one per CJK character. */
    lemma DefaultRateIsRoundedUp(text: string)
      requires DefaultRates()
      ensures TextTokens(text) == (Other(text) + 3) / 4 + Cjk(text)
    {
      CharactersPartition(text);
      if text != "" {
        QuarterRoundedUp(Other(text), Cjk(text));
      }
    }

    lemma QuarterRoundedUp(asciiChars: nat, cjkChars: nat)
      requires DefaultRates() && asciiChars + cjkChars > 0
      ensures Rate(asciiChars, cjkChars) == (asciiChars + 3) / 4 + cjkChars
    {
      var q := (asciiChars + 3) / 4;
      var tokens := asciiChars as real / 4.0 + cjkChars as real / 1.0 + 0.999;
      assert tokens == asciiChars as real / 4.0 + cjkChars as real + 0.999;
      assert 4 * q - 3 <= asciiChars <= 4 * q;
      assert asciiChars as real <= 4.0 * q as real;
      assert asciiChars as real >= 4.0 * q as real - 3.0;
      assert (q + cjkChars) as real <= tokens < (q + cjkChars) as real + 1.0;
    }

    lemma {:induction false} CharactersAppend(a: string, b: string)
      ensures Other(a + b) == Other(a) + Other(b) && Cjk(a + b) == Cjk(a) + Cjk(b)
    {
      if b == "" {
        assert a + b == a;
      } else {
        assert (a + b)[..|a + b| - 1] == a + b[..|b| - 1];
        CharactersAppend(a, b[..|b| - 1]);
      }
    }

    /** Splitting a text costs at most one extra token and never saves any. */
    lemma SplittingCostsAtMostOne(a: string, b: string)
      requires DefaultRates()
      ensures TextTokens(a + b) <= TextTokens(a) + TextTokens(b) <= TextTokens(a + b) + 1
      ensures TextTokens(a) <= TextTokens(a + b) && TextTokens(b) <= TextTokens(a + b)
    {
      CharactersAppend(a, b);
      DefaultRateIsRoundedUp(a);
      DefaultRateIsRoundedUp(b);
      DefaultRateIsRoundedUp(a + b);
    }

    lemma {:induction false} SumTokensAppend(a: seq<Message>, b: seq<Message>)
      ensures SumTokens(a + b) == SumTokens(a) + SumTokens(b)
    {
      if b == [] {
        assert a + b == a;
      } else {
        assert (a + b)[..|a + b| - 1] == a + b[..|b| - 1];
        SumTokensAppend(a, b[..|b| - 1]);
      }
    }

    /** At any rates, every removed row saves at least its framing overhead, so all the
        budget results about monotone counters hold for this tokenizer. */
    lemma CountingIsMonotone()
      ensures Monotone(Counting())
      ensures forall a, m, b :: MessagesTokens(a + b) + PER_MESSAGE_OVERHEAD <= MessagesTokens(a + [m] + b)
    {
      forall a: seq<Message>, m: Message, b: seq<Message>
        ensures MessagesTokens(a + b) + PER_MESSAGE_OVERHEAD <= MessagesTokens(a + [m] + b)
      {
        SumTokensAppend(a, b);
        SumTokensAppend(a + [m], b);
        SumTokensAppend(a, [m]);
        assert [m][..0] == [];
      }
    }
  }
}
