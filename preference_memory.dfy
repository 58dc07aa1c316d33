/**
 * The extraction validator: the extractor's function-call arguments are
 * checked against the schema; on failure the extraction chain is invoked
 * once more with a prompt that carries the previous output and the error,
 * and the outcome is classified as valid on the first try, valid on the
 * second try, or invalid. Valid arguments are stored with every `None`
 * removed.
 *
 * The arguments of a reply are modelled as the JSON value their text
 * encodes; schema validation is a parameter, returning the text of the
 * validation error or `None`; the extractor is a parameter, a function of
 * the prompt template and the input.
 */
module PreferenceMemory {
  import opened Wrappers
  import opened Strings
  import opened Json

  /** An extractor reply: the arguments of its function call. */
  datatype Output = Output(arguments: Json)

  /** What the chain is invoked with: the user name and the conversation text. */
  datatype Input = Input(userName: string, conversation: string)

  /** Schema validation of a keyword-argument mapping: the error text, or `None` when valid. */
  type SchemaCheck = seq<(string, Json)> -> Option<string>

  /** The extractor behind the chain: its reply to a template and an input. */
  type Extractor = (string, Input) -> Output

  const DoubleStarMessage := "argument after ** must be a mapping"

  /**
   * `validate_extraction`: an empty (falsy) result passes; a mapping is
   * validated by the schema; anything else cannot be spread into keyword
   * arguments and raises.
   */
  function ValidateExtraction(result: Json, check: SchemaCheck): (r: Result<Option<string>>)
    ensures r.Ok? <==> IsFalsy(result) || result.Obj?
    ensures r == Ok(None) <==> IsFalsy(result) || (result.Obj? && check(result.members).None?)
  {
    if IsFalsy(result) then Ok(None)
    else if result.Obj? then Ok(check(result.members))
    else Err(TypeError(DoubleStarMessage))
  }

  // ----------------------------------------------------------- the retry prompt

  const RetryHeader: string := "\n# Errors from previous try:\n Your previous call did not produce a valid output format "
    + "(possible reasons: category was skipped, non-existing key, subcategory corresponds to different parent category): "
  const RetryMiddle: string := ". This failed because of the validation error:\n"
  const RetryTail: string := "Please correct the error and extract the same preference in the correct format."

  /** Text without braces, which the template engine renders as itself. */
  predicate Plain(s: string) {
    '{' !in s && '}' !in s
  }

  /**
   * The retry template: the original, a line break, then the error report
   * with the previous output and the error text escaped for the template
   * engine.
   */
  function RetryTemplate(original: string, previous: string, error: string): (r: string)
    ensures |r| > |original| && r[..|original|] == original
    ensures r[|original|] == '\n'
  {
    original + Filled("\n" + RetryHeader, EscapeBraces(previous), RetryMiddle, EscapeBraces(error), RetryTail)
  }

  /**
   * The retry template starts with the original template unchanged and
   * embeds the previous output and the error with every brace doubled.
   */
  lemma {:induction false} RetryTemplateDoubles(original: string, previous: string, error: string)
    ensures RetryTemplate(original, previous, error)[..|original|] == original
    ensures RetryTemplate(original, previous, error)[|original|..]
      == Filled("\n" + RetryHeader, DoubledBraces(previous), RetryMiddle, DoubledBraces(error), RetryTail)
  {
    var suffix := Filled("\n" + RetryHeader, EscapeBraces(previous), RetryMiddle, EscapeBraces(error), RetryTail);
    assert RetryTemplate(original, previous, error) == original + suffix;
  }

  /** Two texts put between three fixed texts. */
  function Filled(head: string, previous: string, middle: string, error: string, tail: string): string {
    head + (previous + (middle + (error + tail)))
  }

  /** Brace-free literal text renders as itself in front of anything. */
  lemma {:induction false} RenderPlainThen(a: string, b: string)
    requires Plain(a)
    ensures RenderLiteral(a + b) == a + RenderLiteral(b)
    decreases |a|
  {
    if |a| > 0 {
      var t := a + b;
      assert t[0] == a[0] && t[1..] == a[1..] + b;
      if |t| >= 2 {
        assert t[..2] != "{{" && t[..2] != "}}" by { assert t[..2][0] == a[0]; }
      }
      RenderPlainThen(a[1..], b);
      assert [a[0]] + a[1..] == a;
    } else {
      assert a + b == b;
    }
  }

  /** Escaped text renders as the original text in front of anything. */
  lemma {:induction false} RenderEscapedThen(s: string, b: string)
    ensures RenderLiteral(EscapeBraces(s) + b) == s + RenderLiteral(b)
    decreases |s|
  {
    if |s| > 0 {
      var e := EscapedChar(s[0]);
      var t := DoubledBraces(s) + b;
      assert DoubledBraces(s) == e + DoubledBraces(s[1..]);
      assert t == e + (DoubledBraces(s[1..]) + b);
      RenderEscapedThen(s[1..], b);
      if s[0] == '{' || s[0] == '}' {
        assert t[..2] == e && t[2..] == DoubledBraces(s[1..]) + b;
      } else {
        assert t[0] == s[0] && t[1..] == DoubledBraces(s[1..]) + b;
        if |t| >= 2 {
          assert t[..2] != "{{" && t[..2] != "}}" by { assert t[..2][0] == s[0]; }
        }
      }
      assert [s[0]] + s[1..] == s;
    } else {
      assert DoubledBraces(s) + b == b;
    }
  }

  /**
   * Around brace-free fixed texts, the escaped previous output and error
   * render back verbatim: the escaping neither loses a brace nor lets the
   * embedded texts open a placeholder.
   */
  lemma {:induction false} FilledRenders(head: string, previous: string, middle: string, error: string, tail: string)
    requires Plain(head) && Plain(middle) && Plain(tail)
    ensures RenderLiteral(Filled(head, EscapeBraces(previous), middle, EscapeBraces(error), tail))
      == Filled(head, previous, middle, error, tail)
  {
    RenderPlainThen(tail, "");
    RenderEscapedThen(error, tail);
    RenderPlainThen(middle, EscapeBraces(error) + tail);
    RenderEscapedThen(previous, middle + (EscapeBraces(error) + tail));
    RenderPlainThen(head, EscapeBraces(previous) + (middle + (EscapeBraces(error) + tail)));
    assert RenderLiteral("") == "";
    assert tail + "" == tail;
  }

  // --------------------------------------------------------------- the chain

  /** The extraction chain: a mutable prompt template in front of the extractor. */
  class Chain {
    var template: string
    /** Every invocation so far: the template it used and its input. */
    var invocations: seq<(string, Input)>
    const extractor: Extractor

    constructor (template: string, extractor: Extractor)
      ensures this.template == template && this.extractor == extractor && invocations == []
    {
      this.template := template;
      this.extractor := extractor;
      invocations := [];
    }

    /** Invokes the extractor with the current template. */
    method Invoke(input: Input) returns (out: Output)
      modifies this
      ensures out == extractor(template, input) && template == old(template)
      ensures invocations == old(invocations) + [(template, input)]
    {
      invocations := invocations + [(template, input)];
      out := extractor(template, input);
    }
  }

  // ----------------------------------------------------- validate and retry

  /**
   * What `validate_output_and_retry` returns for a first output, given the
   * chain's template and extractor: the output to keep and `valid_at_try`.
   */
  function ValidateAndRetry(first: Output, check: SchemaCheck, template: string, extractor: Extractor, input: Input)
    : (r: Result<(Output, Option<nat>)>)
    ensures ValidateExtraction(first.arguments, check).Err? ==> r == Err(ValidateExtraction(first.arguments, check).error)
    ensures ValidateExtraction(first.arguments, check) == Ok(None) ==> r == Ok((Output(FilterNone(first.arguments)), Some(1)))
    ensures r.Ok? ==> r.value.1 == Some(1) || r.value.1 == Some(2) || r.value.1 == None
  {
    match ValidateExtraction(first.arguments, check)
    case Err(e) => Err(e)
    case Ok(None) => Ok((Output(FilterNone(first.arguments)), Some(1)))
    case Ok(Some(error)) =>
      var second := extractor(RetryTemplate(template, Repr(first.arguments), error), input);
      match ValidateExtraction(second.arguments, check)
      case Err(e) => Err(e)
      case Ok(None) => Ok((Output(FilterNone(second.arguments)), Some(2)))
      case Ok(Some(_)) => Ok((second, None))
  }

  /**
   * `valid_at_try` is 1, 2 or `None`; it is 1 exactly when the first
   * arguments validate or are empty, and 2 exactly when they do not but
   * the retry's do.
   */
  lemma {:induction false} ValidAtTry(first: Output, check: SchemaCheck, template: string, extractor: Extractor, input: Input)
    requires ValidateAndRetry(first, check, template, extractor, input).Ok?
    ensures var (_, valid) := ValidateAndRetry(first, check, template, extractor, input).value;
      var v := ValidateExtraction(first.arguments, check);
      && (valid == Some(1) || valid == Some(2) || valid == None)
      && (valid == Some(1) <==> v == Ok(None))
      && (valid == Some(2) <==>
            (v.Ok? && v.value.Some? &&
             ValidateExtraction(extractor(RetryTemplate(template, Repr(first.arguments), v.value.value), input).arguments, check)
               == Ok(None)))
  {
  }

  /**
   * A valid outcome carries the accepted arguments with every `None`
   * removed, so none is left; an invalid one carries the retry's output
   * exactly as it came.
   */
  lemma {:induction false} ValidOutputIsFiltered(first: Output, check: SchemaCheck, template: string, extractor: Extractor, input: Input)
    requires ValidateAndRetry(first, check, template, extractor, input).Ok?
    ensures var (out, valid) := ValidateAndRetry(first, check, template, extractor, input).value;
      && (valid == Some(1) ==> out.arguments == FilterNone(first.arguments))
      && (valid.Some? ==> NullFree(out.arguments) && FilterNone(out.arguments) == out.arguments)
      && (valid.None? ==>
            (ValidateExtraction(first.arguments, check).Ok? && ValidateExtraction(first.arguments, check).value.Some? &&
             out == extractor(RetryTemplate(template, Repr(first.arguments), ValidateExtraction(first.arguments, check).value.value), input)))
  {
    var (out, valid) := ValidateAndRetry(first, check, template, extractor, input).value;
    if valid.Some? {
      var accepted := if valid == Some(1) then first.arguments
        else extractor(RetryTemplate(template, Repr(first.arguments), ValidateExtraction(first.arguments, check).value.value), input).arguments;
      assert out.arguments == FilterNone(accepted);
      FilterNoneIsNullFree(accepted);
      FilterNoneIdempotent(accepted);
    }
  }

  /** `validate_output_and_retry`, with the chain's template edited for the retry and put back. */
  method ValidateOutputAndRetry(first: Output, check: SchemaCheck, chain: Chain, input: Input)
    returns (r: Result<(Output, Option<nat>)>)
    modifies chain
    ensures r == ValidateAndRetry(first, check, old(chain.template), chain.extractor, input)
    ensures chain.template == old(chain.template)
    ensures |chain.invocations| <= |old(chain.invocations)| + 1
    ensures |chain.invocations| == |old(chain.invocations)| + 1 <==>
      ValidateExtraction(first.arguments, check).Ok? && ValidateExtraction(first.arguments, check).value.Some?
    ensures |chain.invocations| == |old(chain.invocations)| + 1 ==>
      chain.invocations[|chain.invocations| - 1].0
        == RetryTemplate(old(chain.template), Repr(first.arguments), ValidateExtraction(first.arguments, check).value.value)
  {
    var validation := ValidateExtraction(first.arguments, check);
    if validation.Err? {
      return Err(validation.error);
    }
    if validation.value.None? {
      return Ok((Output(FilterNone(first.arguments)), Some(1)));
    }
    var original := chain.template;
    chain.template := RetryTemplate(chain.template, Repr(first.arguments), validation.value.value);
    var second := chain.Invoke(input);
    chain.template := original;
    var again := ValidateExtraction(second.arguments, check);
    if again.Err? {
      return Err(again.error);
    }
    if again.value.Some? {
      return Ok((second, None));
    }
    r := Ok((Output(FilterNone(second.arguments)), Some(2)));
  }
}
