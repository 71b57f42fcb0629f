/**
 * The score engine of `OpenAIHandler`: one completion request per category,
 * whose text reply is read as an integer, rescaled onto [-10, 10] and bucketed
 * into a tri-state score, with the sentinel -1001 for every failure.
 *
 * The completion service is an abstract oracle from prompt text to the
 * outcome of reading its reply with `int()`. Only AuthenticationError and
 * ValueError are caught; every other exception escapes the scorer.
 */
module Scoring {
  import opened Wrappers
  import opened Categories

  /** What one completion request yields once its reply went through `int()`. */
  datatype Completion =
    | AuthenticationFailure   // the client raised AuthenticationError
    | NonNumeric              // `int()` raised ValueError on the reply text
    | Numeric(value: int)     // `int()` succeeded
    | Uncaught                // any other client error (rate limit, connection,
                              // timeout, invalid request), or a reply without
                              // text, on which `int(None)` raises TypeError

  /** The score meaning "not calculated". */
  const NotCalculated: int := -1001

  /**
   * 5 * (2^1024 - 2^970). Python's `v / 5` on an int raises OverflowError once
   * the correctly rounded quotient would pass the largest double, that is
   * from this magnitude of `v` on.
   */
  const OverflowBound: int := 0x4_FFFFFFFFFFFFEC00_0000000000000000_0000000000000000_0000000000000000_0000000000000000_0000000000000000_0000000000000000_0000000000000000_0000000000000000_0000000000000000_0000000000000000_0000000000000000_0000000000000000_0000000000000000_0000000000000000_0000000000000000

  /**
   * The reply is scored without an exception escaping: the request raised
   * nothing the scorer lets through, and `v / 5` does not overflow.
   */
  predicate Fits(c: Completion) {
    && !c.Uncaught?
    && (c.Numeric? ==> -OverflowBound < c.value < OverflowBound)
  }

  /**
   * `((v / 5) - 1) * 10` evaluated exactly. For an integer `v` the floating
   * point result lies on the same side of -10, 0 and 10 as this one.
   */
  function Rescale(v: int): (scaled: int)
    ensures scaled as real == ((v as real / 5.0) - 1.0) * 10.0
    ensures -10 <= scaled <= 10 <==> 0 <= v <= 10
    ensures scaled <= 0 <==> v <= 5
  {
    2 * v - 10
  }

  /**
   * The shared tail of the three category scorers, with the branch order of
   * the source: `<= 0` is checked before `== 0`, so 0 is never returned.
   */
  function Normalize(c: Completion): (r: int)
    requires Fits(c)
    ensures r == NotCalculated || r == -1 || r == 1
    ensures r == NotCalculated <==> !(c.Numeric? && 0 <= c.value <= 10)
    ensures r == -1 <==> c.Numeric? && 0 <= c.value <= 5
    ensures r == 1 <==> c.Numeric? && 6 <= c.value <= 10
  {
    match c
    case AuthenticationFailure => NotCalculated
    case NonNumeric => NotCalculated
    case Uncaught => assert false; NotCalculated
    case Numeric(v) =>
      var scaled := Rescale(v);
      if scaled < -10 || scaled > 10 then NotCalculated
      else if scaled <= 0 then -1
      else if scaled == 0 then 0
      else if scaled >= 0 then 1
      else assert false; NotCalculated
  }

  /** The range [-1, 0, 1] the scorers' docstrings promise: a rescaled 0 is its own neutral bucket. */
  function NormalizeIntended(c: Completion): (r: int)
    requires Fits(c)
    ensures r == NotCalculated || r == -1 || r == 0 || r == 1
    ensures r == NotCalculated <==> !(c.Numeric? && 0 <= c.value <= 10)
    ensures r == -1 <==> c.Numeric? && 0 <= c.value <= 4
    ensures r == 0 <==> c == Numeric(5)
    ensures r == 1 <==> c.Numeric? && 6 <= c.value <= 10
  {
    match c
    case AuthenticationFailure => NotCalculated
    case NonNumeric => NotCalculated
    case Uncaught => assert false; NotCalculated
    case Numeric(v) =>
      var scaled := Rescale(v);
      if scaled < -10 || scaled > 10 then NotCalculated
      else if scaled == 0 then 0
      else if scaled < 0 then -1
      else 1
  }

  /** Selects the source as written or as its docstrings describe it. */
  datatype Variant = AsWritten | Intended

  function NormalizeFor(variant: Variant, c: Completion): int
    requires Fits(c)
  {
    if variant.AsWritten? then Normalize(c) else NormalizeIntended(c)
  }

  /** For valid replies, a higher raw reply never gets a lower bucket. */
  lemma NormalizeMonotone(variant: Variant, v: int, w: int)
    requires 0 <= v <= w <= 10
    ensures NormalizeFor(variant, Numeric(v)) <= NormalizeFor(variant, Numeric(w))
  {
  }

  /** The reply "5" rescales to exactly 0, yet the written branch order reports -1. */
  lemma ScaledZeroIsNegative()
    ensures Rescale(5) == 0
    ensures Normalize(Numeric(5)) == -1
    ensures NormalizeIntended(Numeric(5)) == 0
  {
  }

  /** The prompt is the category's template followed verbatim by the message. */
  function Prompt(template: string, content: string): (prompt: string)
    ensures |prompt| == |template| + |content|
    ensures prompt[..|template|] == template
    ensures prompt[|template|..] == content
  {
    template + content
  }

  /** The prompt template text of each category. */
  type Templates = ByCategory<string>

  /** The completion service, from prompt text to the outcome of `int()` on its reply. */
  type Oracle = string -> Completion

  /** None of the three replies for `content` makes the scorer raise. */
  predicate RepliesFit(templates: Templates, oracle: Oracle, content: string) {
    && Fits(oracle(Prompt(templates.grammar, content)))
    && Fits(oracle(Prompt(templates.friendliness, content)))
    && Fits(oracle(Prompt(templates.humor, content)))
  }

  /**
   * The body shared by `get_grammar_score`, `get_friendliness_score` and
   * `get_humor_score`; they differ only in the template. `None` is an
   * exception escaping the scorer.
   */
  function CategoryScore(variant: Variant, template: string, oracle: Oracle, content: string): (r: Option<int>)
    ensures r.None? <==> !Fits(oracle(Prompt(template, content)))
    ensures r.Some? ==> var reply := oracle(Prompt(template, content));
      (r.value == NotCalculated <==> !(reply.Numeric? && 0 <= reply.value <= 10))
    ensures r.Some? && variant.AsWritten? ==> r.value == NotCalculated || r.value == -1 || r.value == 1
    ensures r.Some? && variant.Intended? ==> r.value == NotCalculated || r.value == -1 || r.value == 0 || r.value == 1
    ensures r.Some? && variant.AsWritten? ==> var reply := oracle(Prompt(template, content));
      && (r.value == -1 <==> reply.Numeric? && 0 <= reply.value <= 5)
      && (r.value == 1 <==> reply.Numeric? && 6 <= reply.value <= 10)
    ensures r.Some? && variant.Intended? ==> var reply := oracle(Prompt(template, content));
      && (r.value == -1 <==> reply.Numeric? && 0 <= reply.value <= 4)
      && (r.value == 0 <==> reply == Numeric(5))
      && (r.value == 1 <==> reply.Numeric? && 6 <= reply.value <= 10)
  {
    var reply := oracle(Prompt(template, content));
    if Fits(reply) then Some(NormalizeFor(variant, reply)) else None
  }

  /**
   * `get_message_score`: the three categories, each scored on its own prompt.
   * An exception from any of the three escapes the whole call.
   */
  function GetMessageScore(variant: Variant, templates: Templates, oracle: Oracle, content: string): (r: Option<Scores>)
    ensures r.Some? <==> RepliesFit(templates, oracle, content)
    ensures r.Some? ==> forall c :: CategoryScore(variant, templates.Get(c), oracle, content) == Some(r.value.Get(c))
    ensures r.Some? ==> forall c :: r.value.Get(c) == NotCalculated || r.value.Get(c) == -1 || r.value.Get(c) == 0 || r.value.Get(c) == 1
    ensures r.Some? && variant.AsWritten? ==> forall c :: r.value.Get(c) != 0
  {
    var grammar :- CategoryScore(variant, templates.grammar, oracle, content);
    var friendliness :- CategoryScore(variant, templates.friendliness, oracle, content);
    var humor :- CategoryScore(variant, templates.humor, oracle, content);
    Some(ByCategory(grammar, friendliness, humor))
  }

  /**
   * A category's score depends only on the reply to that category's prompt:
   * a sentinel in one category leaves the others as they would be.
   */
  lemma CategoriesIndependent(variant: Variant, templates: Templates, o1: Oracle, o2: Oracle, content: string, c: Category)
    requires RepliesFit(templates, o1, content) && RepliesFit(templates, o2, content)
    requires o1(Prompt(templates.Get(c), content)) == o2(Prompt(templates.Get(c), content))
    ensures GetMessageScore(variant, templates, o1, content).value.Get(c) == GetMessageScore(variant, templates, o2, content).value.Get(c)
  {
  }

  /** `generate_default_scores`: every category starts at 10, with no request made. */
  function DefaultScores(): (r: Scores)
    ensures forall c :: r.Get(c) == 10
  {
    ByCategory(10, 10, 10)
  }
}
