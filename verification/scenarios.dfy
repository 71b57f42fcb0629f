/** Concrete runs of the model and the findings' witnesses. */
module Scenarios {
  import opened Wrappers
  import opened Decimal
  import opened Categories
  import opened Scoring
  import opened Words
  import opened Ledger
  import opened Bot

  const Empty: State := State(map[], map[])

  /** The bot runs as user 1; every template is empty. */
  const Cfg: Config := Config(1, ByCategory("", "", ""))

  lemma SevenPrintsAsSeven()
    ensures IntToString(7) == "7"
  {
  }

  /** A new user whose message scores {1, 0, -1} ends with totals {11, 10, 9}. */
  lemma NewUserAccumulates()
    ensures var r := UpdateScores(Empty, IntId(7), ByCategory(1, 0, -1));
      "7" in r.disk && r.disk["7"] == ByCategory(11, 10, 9)
  {
    SevenPrintsAsSeven();
    var r := UpdateScores(Empty, IntId(7), ByCategory(1, 0, -1));
    assert r.mem[IntId(7)].Get(Grammar) == 11;
    assert r.mem[IntId(7)].Get(Friendliness) == 10;
    assert r.mem[IntId(7)].Get(Humor) == 9;
  }

  /** The reply "7" rescales to 4 and scores +1. */
  lemma ReplySevenIsPositive()
    ensures Rescale(7) == 4
    ensures Normalize(Numeric(7)) == 1
  {
  }

  /** The word table's example entries and its two failures. */
  lemma WordExamples()
    ensures GetCorrespondingWord("grammar", 1).Ok? && GetCorrespondingWord("grammar", 1).value == "Appropriate"
    ensures GetCorrespondingWord("friendliness", -1).Ok? && GetCorrespondingWord("friendliness", -1).value == "Not friendly"
    ensures GetCorrespondingWord("grammar", 2) == Err(ValueError("Invalid score."))
    ensures GetCorrespondingWord("tone", 1) == Err(ValueError("Invalid label."))
  {
    assert "tone" !in ValidLabels;
  }

  function AlwaysNonNumeric(prompt: string): Completion {
    NonNumeric
  }

  function AlwaysSeven(prompt: string): Completion {
    Numeric(7)
  }

  /** Every request fails with an error the scorer does not catch, such as a rate limit. */
  function AlwaysUncaught(prompt: string): Completion {
    Uncaught
  }

  /** Every reply is a number too large for `v / 5`. */
  function AlwaysHuge(prompt: string): Completion {
    Numeric(OverflowBound)
  }

  /** A client error other than AuthenticationError escapes `on_message`; the ledger is untouched. */
  lemma UncaughtErrorRaises(st: State)
    ensures Handle(AsWritten, Cfg, AlwaysUncaught, st, Message(7, "hello")) == Step(st, Raise(ScorerFailure))
  {
    HelloIsScored();
  }

  /** A reply too large for `v / 5` raises OverflowError out of `on_message`. */
  lemma HugeReplyRaises(st: State)
    ensures Handle(AsWritten, Cfg, AlwaysHuge, st, Message(7, "hello")) == Step(st, Raise(ScorerFailure))
  {
    HelloIsScored();
  }

  /** The line a category gets when its score was not calculated. */
  function NotCalculatedLine(title: string): string {
    title + ":** Not calculated\n**"
  }

  /**
   * A reply that is not a number: every category reads "Not calculated" and
   * the increments are all 0.
   */
  lemma NonNumericNotCalculated(st: State)
    ensures var m := Message(7, "hello");
      var r := Handle(AsWritten, Cfg, AlwaysNonNumeric, st, m);
      && Increments(AsWritten, Cfg, AlwaysNonNumeric, m) == ByCategory(0, 0, 0)
      && r.reply == Send(Embed("hello",
           NotCalculatedLine("Grammar") + NotCalculatedLine("Friendliness") + NotCalculatedLine("Humor"), Blue))
  {
    var m := Message(7, "hello");
    HelloIsScored();
    var scores := GetMessageScore(AsWritten, Cfg.templates, AlwaysNonNumeric, m.content).value;
    assert scores == ByCategory(NotCalculated, NotCalculated, NotCalculated) by {
      assert scores.Get(Grammar) == NotCalculated;
      assert scores.Get(Friendliness) == NotCalculated;
      assert scores.Get(Humor) == NotCalculated;
    }
    CapitalizedLabels();
    assert Wrappers.Ok(NotCalculatedLine("Grammar")) == RenderLine(Grammar, NotCalculated);
    assert Wrappers.Ok(NotCalculatedLine("Friendliness")) == RenderLine(Friendliness, NotCalculated);
    assert Wrappers.Ok(NotCalculatedLine("Humor")) == RenderLine(Humor, NotCalculated);
  }

  lemma HelloIsScored()
    ensures ParseCommand("hello") == ScoreCommand
  {
    assert !StartsWith("hello", "!help") by { assert "hello"[0] != '!'; }
    assert !StartsWith("hello", "!me") by { assert "hello"[0] != '!'; }
    assert !StartsWith("hello", "!reset") by { assert "hello"[0] != '!'; }
  }

  lemma MeIsMe()
    ensures ParseCommand("!me") == MeCommand
  {
    assert StartsWith("!me", "!me");
  }

  lemma CapitalizedLabels()
    ensures Capitalize(Label(Grammar)) == "Grammar"
    ensures Capitalize(Label(Friendliness)) == "Friendliness"
    ensures Capitalize(Label(Humor)) == "Humor"
  {
    CapitalizeIs("grammar", "Grammar");
    CapitalizeIs("friendliness", "Friendliness");
    CapitalizeIs("humor", "Humor");
  }

  /** Replies of "7" give +1 in every category. */
  lemma SevenIncrements(variant: Variant)
    ensures Increments(variant, Cfg, AlwaysSeven, Message(7, "hello")) == ByCategory(1, 1, 1)
  {
    var scores := GetMessageScore(variant, Cfg.templates, AlwaysSeven, "hello").value;
    assert scores.Get(Grammar) == 1 && scores.Get(Friendliness) == 1 && scores.Get(Humor) == 1;
  }

  /**
   * Finding, witness: on a fresh ledger user 7 sends a scored message and
   * then `!me`. The file has their record, yet the reply is "not found".
   */
  lemma SessionScoresNotFound()
    ensures var first := Handle(AsWritten, Cfg, AlwaysSeven, Empty, Message(7, "hello")).next;
      && "7" in first.disk
      && Handle(AsWritten, Cfg, AlwaysSeven, first, Message(7, "!me")).reply == Send(NotFoundEmbed)
  {
    SevenPrintsAsSeven();
    HelloIsScored();
    MeIsMe();
    var m := Message(7, "hello");
    ScoringStep(AsWritten, Cfg, AlwaysSeven, Empty, m);
    var first := Handle(AsWritten, Cfg, AlwaysSeven, Empty, m).next;
    var inc := Increments(AsWritten, Cfg, AlwaysSeven, m);
    assert first == UpdateScores(Empty, IntId(7), inc);
    assert first.mem.Keys == {IntId(7)};
    assert StrId("7") !in first.mem;
  }

  /** Corrected, witness: the same two messages find the record. */
  lemma SessionScoresFoundIntended()
    ensures var first := Handle(Intended, Cfg, AlwaysSeven, Empty, Message(7, "hello")).next;
      && "7" in first.disk
      && Handle(Intended, Cfg, AlwaysSeven, first, Message(7, "!me")).reply != Send(NotFoundEmbed)
  {
    SevenPrintsAsSeven();
    HelloIsScored();
    MeIsMe();
    var m := Message(7, "hello");
    ScoringStep(Intended, Cfg, AlwaysSeven, Empty, m);
    var first := Handle(Intended, Cfg, AlwaysSeven, Empty, m).next;
    var inc := Increments(Intended, Cfg, AlwaysSeven, m);
    assert first == UpdateScores(Empty, StrId("7"), inc);
    assert StrId("7") in first.mem;
  }

  /** A freshly loaded file in which user 7 has totals {15, 15, 15}. */
  predicate Restarted(st: State) {
    st.disk == map["7" := ByCategory(15, 15, 15)] && st.mem == Load(st.disk)
  }

  /** The write a restarted ledger receives for user 7's +1 message, under either key. */
  lemma RestartedUpdate(st: State, key: Key)
    requires Restarted(st)
    requires key == IntId(7) || key == StrId("7")
    ensures var d := UpdateScores(st, key, ByCategory(1, 1, 1)).disk;
      "7" in d && d["7"] == Plus(Prior(st.mem, key), ByCategory(1, 1, 1))
  {
    SevenPrintsAsSeven();
    PersistLoad(st.disk);
    UpdatePersisted(st, key, ByCategory(1, 1, 1));
    var d := UpdateScores(st, key, ByCategory(1, 1, 1)).disk["7"];
    var want := Plus(Prior(st.mem, key), ByCategory(1, 1, 1));
    assert d.Get(Grammar) == want.Get(Grammar);
    assert d.Get(Friendliness) == want.Get(Friendliness);
    assert d.Get(Humor) == want.Get(Humor);
  }

  /**
   * Finding, witness: after a restart user 7's next message, scoring +1 in
   * every category, leaves {11, 11, 11} in the file instead of {16, 16, 16}.
   */
  lemma RestartLosesTotals(st: State)
    requires Restarted(st)
    ensures var r := Handle(AsWritten, Cfg, AlwaysSeven, st, Message(7, "hello"));
      "7" in r.next.disk && r.next.disk["7"] == ByCategory(11, 11, 11)
  {
    HelloIsScored();
    SevenIncrements(AsWritten);
    ScoringStep(AsWritten, Cfg, AlwaysSeven, st, Message(7, "hello"));
    RestartedUpdate(st, IntId(7));
  }

  /** Corrected, witness: the same message leaves {16, 16, 16}. */
  lemma RestartKeepsTotalsIntended(st: State)
    requires Restarted(st)
    ensures var r := Handle(Intended, Cfg, AlwaysSeven, st, Message(7, "hello"));
      "7" in r.next.disk && r.next.disk["7"] == ByCategory(16, 16, 16)
  {
    SevenPrintsAsSeven();
    HelloIsScored();
    SevenIncrements(Intended);
    ScoringStep(Intended, Cfg, AlwaysSeven, st, Message(7, "hello"));
    RestartedUpdate(st, StrId("7"));
  }
}
