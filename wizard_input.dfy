/**
 * The setup wizard's prompt primitive `get_input` and its two validators.
 * The operator's typed lines are a finite sequence, read from a position on;
 * running out of lines is Python's `EOFError`.
 */
module WizardInput {
  import opened Wrappers
  import opened Text
  import opened Numbers

  /** What a validator makes of a stripped line: the value to keep, or the message of the `ValueError` it raises. */
  datatype Validated = Accepted(value: string) | Rejected(message: string)

  /**
   * The arguments of one `get_input` call. An empty `default` stands for
   * `None` as well as `""`: both are falsy, and `get_input` only tests truthiness.
   */
  datatype Prompt = Prompt(default: string, validator: Option<string -> Validated>)

  /** An answer, and the index of the first input line not consumed. */
  datatype Reply = Reply(answer: string, next: nat)

  /** What one typed line yields: the answer, or `None` when the validator rejects it and the prompt repeats. */
  function Attempt(p: Prompt, line: string): Option<string> {
    var typed := Strip(line);
    if typed == [] && p.default != [] then Some(p.default)
    else
      match p.validator
      case None => Some(typed)
      case Some(validate) =>
        match validate(typed)
        case Accepted(v) => Some(v)
        case Rejected(_) => None
  }

  /**
   * `get_input` reading the lines from `pos` on: the answer is what the first
   * accepted line yields, every line before it having been rejected; `None`
   * when every remaining line is rejected.
   */
  function Ask(p: Prompt, lines: seq<string>, pos: nat): (r: Option<Reply>)
    requires pos <= |lines|
    ensures r.Some? ==> pos < r.value.next <= |lines|
    ensures r.Some? ==> Attempt(p, lines[r.value.next - 1]) == Some(r.value.answer)
    ensures r.Some? ==> forall j :: pos <= j < r.value.next - 1 ==> Attempt(p, lines[j]).None?
    ensures r.None? ==> forall j :: pos <= j < |lines| ==> Attempt(p, lines[j]).None?
    decreases |lines| - pos
  {
    if pos == |lines| then None
    else
      var attempt := Attempt(p, lines[pos]);
      if attempt.Some? then Some(Reply(attempt.value, pos + 1))
      else Ask(p, lines, pos + 1)
  }

  /** The `while True` loop of `get_input`. */
  method GetInput(p: Prompt, lines: seq<string>, pos: nat) returns (r: Option<Reply>)
    requires pos <= |lines|
    ensures r == Ask(p, lines, pos)
  {
    var i := pos;
    while i < |lines|
      invariant pos <= i <= |lines|
      invariant Ask(p, lines, i) == Ask(p, lines, pos)
      decreases |lines| - i
    {
      var typed := Strip(lines[i]);
      i := i + 1;
      if typed == [] && p.default != [] {
        return Some(Reply(p.default, i));
      }
      if p.validator.Some? {
        var outcome := p.validator.value(typed);
        if outcome.Accepted? {
          return Some(Reply(outcome.value, i));
        }
        continue;
      }
      return Some(Reply(typed, i));
    }
    return None;
  }

  /** An empty line at a prompt with a default yields the default, whatever the validator would have said. */
  lemma AskBlankTakesDefault(p: Prompt, lines: seq<string>, pos: nat)
    requires pos < |lines| && Strip(lines[pos]) == [] && p.default != []
    ensures Ask(p, lines, pos) == Some(Reply(p.default, pos + 1))
  {
  }

  /** Without a validator the first line is the answer, stripped, unless it is empty and a default exists. */
  lemma AskWithoutValidator(p: Prompt, lines: seq<string>, pos: nat)
    requires pos < |lines| && p.validator.None?
    requires Strip(lines[pos]) != [] || p.default == []
    ensures Ask(p, lines, pos) == Some(Reply(Strip(lines[pos]), pos + 1))
  {
  }

  /** The one message both of `validate_port`'s failures carry. */
  const PortError := "Please enter a valid port number"

  const IpError := "Please enter a valid IP address"

  /** `validate_port`: an integer in [1, 65535], returned in canonical decimal form. */
  function ValidatePort(s: string): Validated {
    match ParseInt(s)
    case Some(port) =>
      if 1 <= port <= 65535 then Accepted(IntToString(port)) else Rejected(PortError)
    case None => Rejected(PortError)
  }

  /** A port entered in canonical form is accepted unchanged exactly when it lies in range. */
  lemma ValidatePortRange(n: int)
    ensures ValidatePort(IntToString(n)) ==
      if 1 <= n <= 65535 then Accepted(IntToString(n)) else Rejected(PortError)
  {
    ParseIntRoundTrip(n);
  }

  /** A number above the range is refused. */
  lemma ValidatePortTooLarge()
    ensures ValidatePort("70000") == Rejected(PortError)
  {
    ValidatePortRange(70000);
    assert IntToString(70000) == "70000";
  }

  /** Text that is no integer is refused with the same error. */
  lemma ValidatePortNotNumber()
    ensures ValidatePort("abc") == Rejected(PortError)
  {
    StripPadded([], "abc", []);
    assert [] + "abc" + [] == "abc";
    assert !IsDigitBody("abc") by { assert !IsDigit('a'); }
  }

  /** An accepted port denotes the number typed, and validating it again changes nothing. */
  lemma ValidatePortCanonical(s: string)
    requires ValidatePort(s).Accepted?
    ensures ParseInt(ValidatePort(s).value) == ParseInt(s)
    ensures ValidatePort(ValidatePort(s).value) == ValidatePort(s)
  {
    ParseIntRoundTrip(ParseInt(s).value);
  }

  /**
   * `validate_ip` around the address check `socket.inet_aton`, which is not
   * part of this model: `validIp` stands for its verdict.
   */
  function ValidateIp(validIp: string -> bool, s: string): Validated {
    if validIp(s) then Accepted(s) else Rejected(IpError)
  }

  function PortPrompt(default: string): Prompt {
    Prompt(default, Some(ValidatePort))
  }

  function IpPrompt(validIp: string -> bool, default: string): Prompt {
    Prompt(default, Some(s => ValidateIp(validIp, s)))
  }

  function PlainPrompt(default: string): Prompt {
    Prompt(default, None)
  }

  /** One prompt of a configuration section and the key its answer is stored under. */
  datatype Field = Field(key: string, prompt: Prompt)

  /** The answers of successive prompts, and the first line not consumed. */
  datatype Answers = Answers(values: seq<string>, next: nat)

  /** Asking the prompts of `fields` one after another, each starting where the previous one stopped. */
  function AskFields(fields: seq<Field>, lines: seq<string>, pos: nat): (r: Option<Answers>)
    requires pos <= |lines|
    ensures r.Some? ==> |r.value.values| == |fields| && pos + |fields| <= r.value.next <= |lines|
    decreases |fields|
  {
    if fields == [] then Some(Answers([], pos))
    else
      var first :- Ask(fields[0].prompt, lines, pos);
      var rest :- AskFields(fields[1..], lines, first.next);
      Some(Answers([first.answer] + rest.values, rest.next))
  }

  /**
   * A prompt that keeps answers on one line: its default has no line break,
   * and its validator accepts a text without one only as a value without one.
   */
  ghost predicate KeepsLines(p: Prompt) {
    '\n' !in p.default &&
    (p.validator.Some? ==>
      forall s :: '\n' !in s && p.validator.value(s).Accepted? ==> '\n' !in p.validator.value(s).value)
  }

  /** Such a prompt makes no line break out of a typed line without one. */
  lemma AttemptKeepsLines(p: Prompt, line: string)
    requires KeepsLines(p) && '\n' !in line
    ensures Attempt(p, line).Some? ==> '\n' !in Attempt(p, line).value
  {
    StripWithout(line, '\n');
  }

  /** Port, IP and plain prompts keep lines when their defaults do. */
  lemma PromptsKeepLines(validIp: string -> bool, default: string)
    requires '\n' !in default
    ensures KeepsLines(PortPrompt(default))
    ensures KeepsLines(IpPrompt(validIp, default))
    ensures KeepsLines(PlainPrompt(default))
  {
    forall s | ValidatePort(s).Accepted? ensures '\n' !in ValidatePort(s).value {
      var n := ParseInt(s).value;
      assert 1 <= n && ValidatePort(s).value == NatToString(n);
      assert '\n' !in NatToString(n);
    }
  }

  /** A run of prompts that got all its answers: the first prompt's reply, then the others'. */
  lemma AskFieldsCons(fields: seq<Field>, lines: seq<string>, pos: nat)
    requires pos <= |lines| && fields != [] && AskFields(fields, lines, pos).Some?
    ensures Ask(fields[0].prompt, lines, pos).Some?
    ensures var first := Ask(fields[0].prompt, lines, pos).value;
      AskFields(fields[1..], lines, first.next).Some? &&
      var rest := AskFields(fields[1..], lines, first.next).value;
      AskFields(fields, lines, pos).value == Answers([first.answer] + rest.values, rest.next)
  {
  }

  /** `v` is what prompt `p` makes of one of the lines from `lo` up to `hi`. */
  ghost predicate AnsweredFrom(p: Prompt, lines: seq<string>, lo: nat, hi: nat, v: string) {
    exists j :: lo <= j < hi && j < |lines| && Attempt(p, lines[j]) == Some(v)
  }

  /** An answer found in a later stretch of lines lies within any stretch around it. */
  lemma AnsweredFromWiden(p: Prompt, lines: seq<string>, lo: nat, hi: nat, lo': nat, hi': nat, v: string)
    requires AnsweredFrom(p, lines, lo, hi, v) && lo' <= lo && hi <= hi'
    ensures AnsweredFrom(p, lines, lo', hi', v)
  {
    var j :| lo <= j < hi && j < |lines| && Attempt(p, lines[j]) == Some(v);
    assert lo' <= j < hi' && j < |lines| && Attempt(p, lines[j]) == Some(v);
  }

  /** A prompt's answer is what it made of one of the lines it consumed. */
  lemma AskAnswered(p: Prompt, lines: seq<string>, pos: nat)
    requires pos <= |lines|
    ensures var r := Ask(p, lines, pos);
      r.Some? ==> AnsweredFrom(p, lines, pos, r.value.next, r.value.answer)
  {
    var r := Ask(p, lines, pos);
    if r.Some? {
      var j := r.value.next - 1;
      assert pos <= j < r.value.next && j < |lines| && Attempt(p, lines[j]) == Some(r.value.answer);
    }
  }

  /** Every answer of a run of prompts is what its prompt made of one of the lines consumed. */
  lemma {:induction false} AskFieldsAnswers(fields: seq<Field>, lines: seq<string>, pos: nat)
    requires pos <= |lines|
    ensures var r := AskFields(fields, lines, pos);
      r.Some? ==> forall i :: 0 <= i < |fields| ==>
        AnsweredFrom(fields[i].prompt, lines, pos, r.value.next, r.value.values[i])
    decreases |fields|
  {
    var r := AskFields(fields, lines, pos);
    if fields != [] && r.Some? {
      AskFieldsCons(fields, lines, pos);
      var first := Ask(fields[0].prompt, lines, pos).value;
      AskFieldsAnswers(fields[1..], lines, first.next);
      var rest := AskFields(fields[1..], lines, first.next).value;
      assert r.value == Answers([first.answer] + rest.values, rest.next);
      forall i | 0 <= i < |fields|
        ensures AnsweredFrom(fields[i].prompt, lines, pos, r.value.next, r.value.values[i])
      {
        if i == 0 {
          AskAnswered(fields[0].prompt, lines, pos);
          AnsweredFromWiden(fields[0].prompt, lines, pos, first.next, pos, r.value.next, r.value.values[0]);
        } else {
          assert fields[1..][i - 1] == fields[i] && rest.values[i - 1] == r.value.values[i];
          AnsweredFromWiden(fields[i].prompt, lines, first.next, rest.next, pos, r.value.next, r.value.values[i]);
        }
      }
    }
  }

  /** A port prompt whose default is a valid port only ever yields valid ports, in canonical form. */
  lemma AttemptPort(default: string, line: string)
    requires ValidatePort(default) == Accepted(default)
    ensures Attempt(PortPrompt(default), line).Some? ==>
      var v := Attempt(PortPrompt(default), line).value;
      ValidatePort(v) == Accepted(v)
  {
    var typed := Strip(line);
    if !(typed == [] && default != []) && ValidatePort(typed).Accepted? {
      ValidatePortCanonical(typed);
    }
  }

  /** Answers gathered so far, put in front of what the remaining prompts yield. */
  function Prepend(values: seq<string>, rest: Option<Answers>): Option<Answers> {
    match rest
    case None => None
    case Some(a) => Some(Answers(values + a.values, a.next))
  }

  /** One step of `AskFields`: the first prompt's answer moves to the gathered values. */
  lemma AskFieldsStep(fields: seq<Field>, lines: seq<string>, pos: nat, values: seq<string>)
    requires fields != [] && pos <= |lines|
    ensures Ask(fields[0].prompt, lines, pos).None? ==> AskFields(fields, lines, pos).None?
    ensures Ask(fields[0].prompt, lines, pos).Some? ==>
      var first := Ask(fields[0].prompt, lines, pos).value;
      Prepend(values, AskFields(fields, lines, pos)) ==
      Prepend(values + [first.answer], AskFields(fields[1..], lines, first.next))
  {
    var first := Ask(fields[0].prompt, lines, pos);
    if first.Some? {
      match AskFields(fields[1..], lines, first.value.next)
      case None =>
      case Some(rest) =>
        assert values + ([first.value.answer] + rest.values) == values + [first.value.answer] + rest.values;
    }
  }

  /** A section's consecutive `get_input` calls, one prompt after another. */
  method GetAnswers(fields: seq<Field>, lines: seq<string>, pos: nat) returns (r: Option<Answers>)
    requires pos <= |lines|
    ensures r == AskFields(fields, lines, pos)
  {
    var values: seq<string> := [];
    var next := pos;
    var i := 0;
    assert fields[0..] == fields;
    match AskFields(fields, lines, pos) {
      case None =>
      case Some(a) => assert [] + a.values == a.values;
    }
    while i < |fields|
      invariant 0 <= i <= |fields| && pos <= next <= |lines|
      invariant AskFields(fields, lines, pos) == Prepend(values, AskFields(fields[i..], lines, next))
    {
      var reply := GetInput(fields[i].prompt, lines, next);
      AskFieldsStep(fields[i..], lines, next, values);
      if reply.None? {
        return None;
      }
      assert fields[i..][1..] == fields[i + 1..];
      values := values + [reply.value.answer];
      next := reply.value.next;
      i := i + 1;
    }
    assert fields[i..] == [] && values + [] == values;
    return Some(Answers(values, next));
  }

  /** The dictionary literal a section returns: each key bound to its answer. */
  function ToMap(fields: seq<Field>, values: seq<string>): map<string, string>
    requires |values| == |fields|
  {
    if fields == [] then map[] else ToMap(fields[1..], values[1..])[fields[0].key := values[0]]
  }

  /** No typed line holds a line break, as with lines read by `input()`. */
  predicate OneLineInput(lines: seq<string>) {
    forall j :: 0 <= j < |lines| ==> '\n' !in lines[j]
  }

  /** Prompts that keep lines, given lines without line breaks, answer without line breaks. */
  lemma AskFieldsKeepLines(fields: seq<Field>, lines: seq<string>, pos: nat)
    requires pos <= |lines| && OneLineInput(lines)
    requires forall i :: 0 <= i < |fields| ==> KeepsLines(fields[i].prompt)
    ensures var r := AskFields(fields, lines, pos);
      r.Some? ==> forall i :: 0 <= i < |r.value.values| ==> '\n' !in r.value.values[i]
  {
    var r := AskFields(fields, lines, pos);
    AskFieldsAnswers(fields, lines, pos);
    if r.Some? {
      forall i | 0 <= i < |r.value.values| ensures '\n' !in r.value.values[i] {
        var p := fields[i].prompt;
        assert AnsweredFrom(p, lines, pos, r.value.next, r.value.values[i]);
        var j :| pos <= j < r.value.next && j < |lines| && Attempt(p, lines[j]) == Some(r.value.values[i]);
        AttemptKeepsLines(p, lines[j]);
      }
    }
  }

  /** Every value of a section's dictionary is one of its answers. */
  lemma {:induction false} ToMapFrom(fields: seq<Field>, values: seq<string>)
    requires |values| == |fields|
    ensures forall k :: k in ToMap(fields, values) ==> ToMap(fields, values)[k] in values
  {
    if fields != [] {
      ToMapFrom(fields[1..], values[1..]);
      assert forall v :: v in values[1..] ==> v in values;
    }
  }

  function KeySet(fields: seq<Field>): set<string> {
    set i | 0 <= i < |fields| :: fields[i].key
  }

  function Defaults(fields: seq<Field>): (r: seq<string>)
    ensures |r| == |fields|
  {
    seq(|fields|, i requires 0 <= i < |fields| => fields[i].prompt.default)
  }

  predicate DistinctKeys(fields: seq<Field>) {
    forall i, j :: 0 <= i < j < |fields| ==> fields[i].key != fields[j].key
  }

  /** A section's dictionary has exactly its fields' keys. */
  lemma {:induction false} ToMapKeys(fields: seq<Field>, values: seq<string>)
    requires |values| == |fields|
    ensures ToMap(fields, values).Keys == KeySet(fields)
  {
    if fields != [] {
      ToMapKeys(fields[1..], values[1..]);
      assert KeySet(fields) == KeySet(fields[1..]) + {fields[0].key} by {
        forall k | k in KeySet(fields) ensures k in KeySet(fields[1..]) + {fields[0].key} {
          var i :| 0 <= i < |fields| && fields[i].key == k;
          if i > 0 {
            assert fields[1..][i - 1].key == k;
          }
        }
      }
    }
  }

  /** With distinct keys, each key of a section's dictionary is bound to its own answer. */
  lemma {:induction false} ToMapValues(fields: seq<Field>, values: seq<string>)
    requires |values| == |fields| && DistinctKeys(fields)
    ensures forall i :: 0 <= i < |fields| ==>
      fields[i].key in ToMap(fields, values) && ToMap(fields, values)[fields[i].key] == values[i]
  {
    ToMapKeys(fields, values);
    if fields != [] {
      ToMapValues(fields[1..], values[1..]);
      ToMapKeys(fields[1..], values[1..]);
      forall i | 0 <= i < |fields|
        ensures fields[i].key in ToMap(fields, values) && ToMap(fields, values)[fields[i].key] == values[i]
      {
        if i > 0 {
          assert fields[1..][i - 1] == fields[i];
        }
      }
    }
  }

  /** Empty lines at prompts that all have defaults yield the defaults, one line per prompt. */
  lemma {:induction false} AskFieldsBlank(fields: seq<Field>, lines: seq<string>, pos: nat)
    requires pos + |fields| <= |lines|
    requires forall j :: pos <= j < pos + |fields| ==> Strip(lines[j]) == []
    requires forall i :: 0 <= i < |fields| ==> fields[i].prompt.default != []
    ensures AskFields(fields, lines, pos) == Some(Answers(Defaults(fields), pos + |fields|))
  {
    if fields != [] {
      AskBlankTakesDefault(fields[0].prompt, lines, pos);
      AskFieldsBlank(fields[1..], lines, pos + 1);
      assert Defaults(fields) == [fields[0].prompt.default] + Defaults(fields[1..]);
    }
  }
}
