/**
 * `DiscordBot.on_message` as one atomic step from a ledger state and an
 * incoming message to the next state and the bot's reply.
 *
 * Each branch changes the ledger before its only `await`, the final
 * `channel.send`, and the completion request is a blocking call, so no other
 * handler runs in between. The log file append and the embed's fixed url are
 * not part of this model. An exception that
 * escapes the handler is a `Raise` reply carrying the state reached so far,
 * since the source rolls nothing back.
 */
module Bot {
  import opened Wrappers
  import opened Decimal
  import opened Categories
  import opened Scoring
  import opened Words
  import opened Ledger

  datatype Message = Message(authorId: int, content: string)

  /** The bot's own user id and the category prompt templates. */
  datatype Config = Config(selfId: int, templates: Templates)

  datatype Colour = Blue | Red

  datatype Embed = Embed(title: string, description: string, colour: Colour)

  datatype Reply = Silent | Send(embed: Embed) | Raise(error: Raised)

  datatype Step = Step(next: State, reply: Reply)

  predicate StartsWith(s: string, prefix: string) {
    |prefix| <= |s| && s[..|prefix|] == prefix
  }

  /** No text starts with two of the command prefixes: they differ in their second character. */
  lemma PrefixesExclusive(s: string)
    ensures !(StartsWith(s, "!help") && StartsWith(s, "!me"))
    ensures !(StartsWith(s, "!help") && StartsWith(s, "!reset"))
    ensures !(StartsWith(s, "!me") && StartsWith(s, "!reset"))
  {
    if StartsWith(s, "!help") {
      assert s[1] == "!help"[1] == 'h';
    }
    if StartsWith(s, "!me") {
      assert s[1] == "!me"[1] == 'm';
    }
  }

  datatype Command = HelpCommand | MeCommand | ResetCommand | ScoreCommand

  /**
   * The `startswith` chain of `on_message`. No text starts with two of the
   * three prefixes, so each command is recognised by its own prefix alone.
   */
  function ParseCommand(content: string): (cmd: Command)
    ensures cmd == HelpCommand <==> StartsWith(content, "!help")
    ensures cmd == MeCommand <==> StartsWith(content, "!me")
    ensures cmd == ResetCommand <==> StartsWith(content, "!reset")
    ensures cmd == ScoreCommand <==>
      !StartsWith(content, "!help") && !StartsWith(content, "!me") && !StartsWith(content, "!reset")
  {
    PrefixesExclusive(content);
    if StartsWith(content, "!help") then HelpCommand
    else if StartsWith(content, "!me") then MeCommand
    else if StartsWith(content, "!reset") then ResetCommand
    else ScoreCommand
  }

  /** `scan_message`: only messages not written by the bot itself are handled. */
  function ScanMessage(cfg: Config, m: Message): (handled: bool)
    ensures handled <==> m.authorId != cfg.selfId
  {
    m.authorId != cfg.selfId
  }

  /** The message reaches the scoring branch, the only one that calls the scorer. */
  predicate ConsultsScorer(cfg: Config, m: Message) {
    ScanMessage(cfg, m) && ParseCommand(m.content) == ScoreCommand
  }

  const HelpEmbed: Embed := Embed(
    "Help on the way!",
    "**!help:** To get help\n**!me:** To see your stats\n**!reset:** Reset your stats",
    Blue)

  const NotFoundEmbed: Embed := Embed("Failure :(", "Sorry, I couldn't find your scores.", Red)

  const ResetEmbed: Embed := Embed("Success!", "**Your scores have reset!**", Blue)

  /** The `!me` reply text for a user's running totals. */
  function StatsText(totals: Scores): string {
    "Grammar:** " + IntToString(totals.grammar) +
    "**\nFriendliness:** " + IntToString(totals.friendliness) +
    "**\nHumor:** " + IntToString(totals.humor) + "**"
  }

  predicate NoStar(s: string) {
    forall i :: 0 <= i < |s| ==> s[i] != '*'
  }

  lemma IntToStringNoStar(n: int)
    ensures NoStar(IntToString(n))
  {
    var r := IntToString(n);
    if n < 0 {
      forall i | 1 <= i < |r| ensures r[i] != '*' {
        assert r[1..][i - 1] == r[i];
      }
    }
  }

  /** A star-free text followed by a star-led rest has its first star right after it. */
  lemma FirstStarAt(x: string, q: string)
    requires NoStar(x) && |q| > 0 && q[0] == '*'
    ensures (x + q)[|x|] == '*'
    ensures forall i :: 0 <= i < |x| ==> (x + q)[i] != '*'
  {
  }

  /** Two star-free texts each followed by a star-led rest: the first star splits them alike. */
  lemma StarSplit(x: string, q: string, y: string, q': string)
    requires x + q == y + q'
    requires NoStar(x) && NoStar(y)
    requires |q| > 0 && q[0] == '*' && |q'| > 0 && q'[0] == '*'
    ensures x == y && q == q'
  {
    FirstStarAt(x, q);
    FirstStarAt(y, q');
    assert |x| == |y|;
    assert x == (x + q)[..|x|];
    assert q == (x + q)[|x|..];
  }

  /** A shared prefix can be dropped from both sides of an equation. */
  lemma DropPrefix(p: string, a: string, b: string)
    requires p + a == p + b
    ensures a == b
  {
    assert a == (p + a)[|p|..];
  }

  /** The `!me` text as one total after another, each led by its fixed label text. */
  lemma StatsTextShape(t: Scores)
    ensures StatsText(t) == "Grammar:** " + (IntToString(t.grammar) + ("**\nFriendliness:** " +
      (IntToString(t.friendliness) + ("**\nHumor:** " + (IntToString(t.humor) + "**")))))
  {
  }

  /** The `!me` text determines the three totals it shows. */
  lemma StatsTextInjective(a: Scores, b: Scores)
    requires StatsText(a) == StatsText(b)
    ensures a == b
  {
    var ga, fa, ha := IntToString(a.grammar), IntToString(a.friendliness), IntToString(a.humor);
    var gb, fb, hb := IntToString(b.grammar), IntToString(b.friendliness), IntToString(b.humor);
    IntToStringNoStar(a.grammar); IntToStringNoStar(a.friendliness); IntToStringNoStar(a.humor);
    IntToStringNoStar(b.grammar); IntToStringNoStar(b.friendliness); IntToStringNoStar(b.humor);
    var p2, p3 := "**\nFriendliness:** ", "**\nHumor:** ";
    var ta, tb := fa + (p3 + (ha + "**")), fb + (p3 + (hb + "**"));
    StatsTextShape(a);
    StatsTextShape(b);
    DropPrefix("Grammar:** ", ga + (p2 + ta), gb + (p2 + tb));
    StarSplit(ga, p2 + ta, gb, p2 + tb);
    DropPrefix(p2, ta, tb);
    StarSplit(fa, p3 + (ha + "**"), fb, p3 + (hb + "**"));
    DropPrefix(p3, ha + "**", hb + "**");
    StarSplit(ha, "**", hb, "**");
    IntToStringInjective();
  }

  predicate Renderable(score: int) {
    score == NotCalculated || score == -1 || score == 0 || score == 1
  }

  /** One category's line of the scoring reply. */
  function RenderLine(c: Category, score: int): (r: Result<string, Raised>)
    ensures r.Ok? <==> Renderable(score)
    ensures !r.Ok? ==> r.error == ValueError("Invalid score.")
    ensures score == NotCalculated ==> r == Ok(Capitalize(Label(c)) + ":** Not calculated\n**")
    ensures score != NotCalculated && r.Ok? ==>
      r.value == Capitalize(Label(c)) + ": **" + GetCorrespondingWord(Label(c), score).value + "**\n"
  {
    if score != NotCalculated then
      var word :- GetCorrespondingWord(Label(c), score);
      Ok(Capitalize(Label(c)) + ": **" + word + "**\n")
    else
      Ok(Capitalize(Label(c)) + ":** Not calculated\n**")
  }

  /** The scoring reply text, in the dictionary's key order; the first bad score raises. */
  function RenderScores(scores: Scores): (r: Result<string, Raised>)
    ensures r.Ok? <==> Renderable(scores.grammar) && Renderable(scores.friendliness) && Renderable(scores.humor)
    ensures r.Ok? ==>
      r.value == RenderLine(Grammar, scores.grammar).value + RenderLine(Friendliness, scores.friendliness).value
                 + RenderLine(Humor, scores.humor).value
    ensures r.Err? ==> r.error == ValueError("Invalid score.")
  {
    var g :- RenderLine(Grammar, scores.grammar);
    var f :- RenderLine(Friendliness, scores.friendliness);
    var h :- RenderLine(Humor, scores.humor);
    Ok(g + f + h)
  }

  /** Sentinel scores become 0 before they reach the ledger. */
  function Substitute(scores: Scores): (increments: Scores)
    ensures forall c :: increments.Get(c) != NotCalculated
    ensures forall c :: scores.Get(c) == NotCalculated ==> increments.Get(c) == 0
    ensures forall c :: scores.Get(c) != NotCalculated ==> increments.Get(c) == scores.Get(c)
  {
    ByCategory(
      if scores.grammar == NotCalculated then 0 else scores.grammar,
      if scores.friendliness == NotCalculated then 0 else scores.friendliness,
      if scores.humor == NotCalculated then 0 else scores.humor)
  }

  /** The key `update_scores` and `!reset` write under: the raw id as written, `str(id)` as intended. */
  function WriteKey(variant: Variant, id: int): Key {
    if variant.AsWritten? then IntId(id) else StrId(IntToString(id))
  }

  /**
   * The `!me` branch: "not found" unless memory has `str(id)`; otherwise
   * memory is replaced by the reloaded file and the reply reads it.
   */
  function HandleMe(st: State, authorId: int): (r: Step)
    ensures r.next.disk == st.disk
    ensures StrId(IntToString(authorId)) !in st.mem ==> r.next == st
    ensures StrId(IntToString(authorId)) in st.mem ==> r.next.mem == Load(st.disk)
    ensures r.reply == Send(NotFoundEmbed) <==> StrId(IntToString(authorId)) !in st.mem
  {
    var key := IntToString(authorId);
    if StrId(key) !in st.mem then Step(st, Send(NotFoundEmbed))
    else
      var reloaded := State(Load(st.disk), st.disk);
      if StrId(key) in reloaded.mem then
        Step(reloaded, Send(Embed("Here are your scores!", StatsText(reloaded.mem[StrId(key)]), Blue)))
      else
        Step(reloaded, Raise(KeyError(key)))
  }

  /** The `!reset` branch. */
  function HandleReset(variant: Variant, st: State, authorId: int): (r: Step)
    ensures r.reply == Send(ResetEmbed)
    ensures WriteKey(variant, authorId) in r.next.mem
    ensures r.next.mem[WriteKey(variant, authorId)] == DefaultScores()
    ensures Consistent(r.next)
  {
    Step(ResetScores(st, WriteKey(variant, authorId)), Send(ResetEmbed))
  }

  /**
   * The scoring branch: score (an exception the engine does not catch leaves
   * the handler before anything is stored), render the reply (which raises
   * on a score the word table lacks, also before anything is stored),
   * replace sentinels by 0 and accumulate.
   */
  function HandleScore(variant: Variant, cfg: Config, oracle: Oracle, st: State, m: Message): (r: Step)
    ensures r.reply.Raise? ==> r.next == st
    ensures !RepliesFit(cfg.templates, oracle, m.content) ==> r == Step(st, Raise(ScorerFailure))
    ensures r.reply.Send? ==>
      && RepliesFit(cfg.templates, oracle, m.content)
      && r.next == UpdateScores(st, WriteKey(variant, m.authorId), Increments(variant, cfg, oracle, m))
    ensures r.reply.Send? ==>
      && RepliesFit(cfg.templates, oracle, m.content)
      && (var scores := GetMessageScore(variant, cfg.templates, oracle, m.content).value;
          RenderScores(scores).Ok? && r.reply == Send(Embed(m.content, RenderScores(scores).value, Blue)))
  {
    match GetMessageScore(variant, cfg.templates, oracle, m.content)
    case None => Step(st, Raise(ScorerFailure))
    case Some(scores) =>
      match RenderScores(scores)
      case Err(e) => Step(st, Raise(e))
      case Ok(text) =>
        Step(UpdateScores(st, WriteKey(variant, m.authorId), Substitute(scores)),
             Send(Embed(m.content, text, Blue)))
  }

  /** `on_message`. `variant` selects the source as written or with both findings fixed. */
  function Handle(variant: Variant, cfg: Config, oracle: Oracle, st: State, m: Message): (r: Step)
    ensures r.next.disk == st.disk || Consistent(r.next)
    ensures r.reply.Raise? ==> r.next.disk == st.disk
  {
    if !ScanMessage(cfg, m) then Step(st, Silent)
    else match ParseCommand(m.content)
      case HelpCommand => Step(st, Send(HelpEmbed))
      case MeCommand => HandleMe(st, m.authorId)
      case ResetCommand => HandleReset(variant, st, m.authorId)
      case ScoreCommand => HandleScore(variant, cfg, oracle, st, m)
  }

  /** The increments the scoring branch adds for `m`. */
  function Increments(variant: Variant, cfg: Config, oracle: Oracle, m: Message): Scores
    requires RepliesFit(cfg.templates, oracle, m.content)
  {
    Substitute(GetMessageScore(variant, cfg.templates, oracle, m.content).value)
  }

  /** `!help` replies with the command list and changes nothing. */
  lemma HelpReplies(variant: Variant, cfg: Config, oracle: Oracle, st: State, m: Message)
    requires ScanMessage(cfg, m) && ParseCommand(m.content) == HelpCommand
    ensures Handle(variant, cfg, oracle, st, m) == Step(st, Send(HelpEmbed))
  {
  }

  /**
   * An exception the score engine does not catch escapes `on_message` with
   * the ledger untouched.
   */
  lemma ScorerFailureRaises(variant: Variant, cfg: Config, oracle: Oracle, st: State, m: Message)
    requires ConsultsScorer(cfg, m) && !RepliesFit(cfg.templates, oracle, m.content)
    ensures Handle(variant, cfg, oracle, st, m) == Step(st, Raise(ScorerFailure))
  {
  }

  /**
   * Every score the engine returns has a word, so once no reply makes the
   * engine raise, the scoring branch never raises.
   */
  lemma ScoringNeverRaises(variant: Variant, cfg: Config, oracle: Oracle, st: State, m: Message)
    requires RepliesFit(cfg.templates, oracle, m.content)
    ensures HandleScore(variant, cfg, oracle, st, m).reply.Send?
  {
    var scores := GetMessageScore(variant, cfg.templates, oracle, m.content).value;
    assert scores.grammar == scores.Get(Grammar);
    assert scores.friendliness == scores.Get(Friendliness);
    assert scores.humor == scores.Get(Humor);
  }

  /** A scored message replies and accumulates its increments under the author's write key. */
  lemma ScoringStep(variant: Variant, cfg: Config, oracle: Oracle, st: State, m: Message)
    requires ConsultsScorer(cfg, m) && RepliesFit(cfg.templates, oracle, m.content)
    ensures Handle(variant, cfg, oracle, st, m).reply.Send?
    ensures Handle(variant, cfg, oracle, st, m).next ==
      UpdateScores(st, WriteKey(variant, m.authorId), Increments(variant, cfg, oracle, m))
  {
    ScoringNeverRaises(variant, cfg, oracle, st, m);
  }

  /** Messages written by the bot itself change nothing and get no reply. */
  lemma SelfMessageIgnored(variant: Variant, cfg: Config, oracle: Oracle, st: State, m: Message)
    requires m.authorId == cfg.selfId
    ensures Handle(variant, cfg, oracle, st, m) == Step(st, Silent)
  {
  }

  /** Outside the scoring branch the completion service is never consulted. */
  lemma OnlyScoringConsultsOracle(variant: Variant, cfg: Config, o1: Oracle, o2: Oracle, st: State, m: Message)
    requires !ConsultsScorer(cfg, m)
    ensures Handle(variant, cfg, o1, st, m) == Handle(variant, cfg, o2, st, m)
  {
  }

  /**
   * From a state whose file is the dump of memory, every message leaves such
   * a state, and the only exception is one the score engine lets escape.
   */
  lemma HandlePreservesConsistency(variant: Variant, cfg: Config, oracle: Oracle, st: State, m: Message)
    requires Consistent(st)
    ensures Consistent(Handle(variant, cfg, oracle, st, m).next)
    ensures Handle(variant, cfg, oracle, st, m).reply.Raise? <==>
      ConsultsScorer(cfg, m) && !RepliesFit(cfg.templates, oracle, m.content)
  {
    if ScanMessage(cfg, m) {
      match ParseCommand(m.content)
      case MeCommand =>
        PersistLoad(st.disk);
      case ScoreCommand =>
        if RepliesFit(cfg.templates, oracle, m.content) {
          ScoringNeverRaises(variant, cfg, oracle, st, m);
        }
      case _ =>
    }
  }


  /** The ledger only ever receives increments in {-1, 0, 1}; a sentinel becomes 0. */
  lemma IncrementsAreTernary(variant: Variant, cfg: Config, oracle: Oracle, m: Message, c: Category)
    requires RepliesFit(cfg.templates, oracle, m.content)
    ensures var inc := Increments(variant, cfg, oracle, m).Get(c);
      inc == -1 || inc == 0 || inc == 1
    ensures GetMessageScore(variant, cfg.templates, oracle, m.content).value.Get(c) == NotCalculated ==>
      Increments(variant, cfg, oracle, m).Get(c) == 0
  {
  }

  /**
   * A scored message adds the increments to its author's totals (the
   * defaults when memory has no such key) and leaves every other entry of
   * the file as it was.
   */
  lemma ScoringAccumulates(variant: Variant, cfg: Config, oracle: Oracle, st: State, m: Message)
    requires ConsultsScorer(cfg, m) && RepliesFit(cfg.templates, oracle, m.content)
    requires Consistent(st)
    requires variant.Intended? ==> !Shadowed(st.mem, IntToString(m.authorId))
    ensures var r := Handle(variant, cfg, oracle, st, m);
      var id := IntToString(m.authorId);
      && r.reply.Send?
      && id in r.next.disk
      && (forall c :: r.next.disk[id].Get(c) ==
            Prior(st.mem, WriteKey(variant, m.authorId)).Get(c) + Increments(variant, cfg, oracle, m).Get(c))
      && (forall t :: t != id ==>
            (t in r.next.disk <==> t in st.disk) && (t in st.disk ==> r.next.disk[t] == st.disk[t]))
  {
    ScoringNeverRaises(variant, cfg, oracle, st, m);
    UpdatePersisted(st, WriteKey(variant, m.authorId), Increments(variant, cfg, oracle, m));
  }

  /** `!reset` sets the author's record to the defaults, whatever it held before. */
  lemma ResetInstallsDefaults(variant: Variant, cfg: Config, oracle: Oracle, st: State, m: Message)
    requires ScanMessage(cfg, m) && ParseCommand(m.content) == ResetCommand
    requires Consistent(st)
    requires variant.Intended? ==> !Shadowed(st.mem, IntToString(m.authorId))
    ensures var r := Handle(variant, cfg, oracle, st, m);
      var id := IntToString(m.authorId);
      && r.reply == Send(ResetEmbed)
      && id in r.next.disk
      && r.next.disk[id] == DefaultScores()
      && (forall t :: t != id ==>
            (t in r.next.disk <==> t in st.disk) && (t in st.disk ==> r.next.disk[t] == st.disk[t]))
  {
    ResetPersisted(st, WriteKey(variant, m.authorId));
  }

  /** Two `!reset` messages in a row leave the same state as one. */
  lemma ResetTwiceIsResetOnce(variant: Variant, cfg: Config, oracle: Oracle, st: State, m: Message)
    requires ParseCommand(m.content) == ResetCommand
    ensures var once := Handle(variant, cfg, oracle, st, m).next;
      Handle(variant, cfg, oracle, once, m).next == once
  {
    if ScanMessage(cfg, m) {
      ResetIdempotent(st, WriteKey(variant, m.authorId));
    }
  }

  /**
   * `!me` answers "not found" exactly when memory lacks the string form of
   * the author's id; otherwise memory is reloaded from the file and the
   * reply shows the file's record.
   */
  lemma MeLooksUpStringKey(variant: Variant, cfg: Config, oracle: Oracle, st: State, m: Message)
    requires ScanMessage(cfg, m) && ParseCommand(m.content) == MeCommand
    requires Consistent(st)
    ensures var r := Handle(variant, cfg, oracle, st, m);
      var id := IntToString(m.authorId);
      && (r.reply == Send(NotFoundEmbed) <==> StrId(id) !in st.mem)
      && (StrId(id) !in st.mem ==> r.next == st)
      && (StrId(id) in st.mem ==>
            && r.next.mem == Load(st.disk)
            && id in st.disk
            && r.reply == Send(Embed("Here are your scores!", StatsText(st.disk[id]), Blue)))
  {
  }

  /** Finding, as written: a user scored in this session is "not found" by `!me`. */
  lemma MeMissesSessionScores(cfg: Config, oracle: Oracle, st: State, m: Message)
    requires ScanMessage(cfg, m) && ParseCommand(m.content) == MeCommand
    requires Consistent(st)
    requires IntId(m.authorId) in st.mem && StrId(IntToString(m.authorId)) !in st.mem
    ensures IntToString(m.authorId) in st.disk
    ensures Handle(AsWritten, cfg, oracle, st, m).reply == Send(NotFoundEmbed)
  {
  }

  /**
   * Finding, as written: right after a load (start-up or `!me`) memory has
   * only string keys, so the next scored message of any user restarts their
   * totals from the defaults, whatever the file held for them.
   */
  lemma ScoringAfterLoadRestarts(cfg: Config, oracle: Oracle, st: State, m: Message)
    requires ConsultsScorer(cfg, m) && RepliesFit(cfg.templates, oracle, m.content)
    requires Consistent(st) && NamedOnly(st.mem)
    ensures var r := Handle(AsWritten, cfg, oracle, st, m);
      var id := IntToString(m.authorId);
      id in r.next.disk &&
      forall c :: r.next.disk[id].Get(c) == 10 + Increments(AsWritten, cfg, oracle, m).Get(c)
  {
    ScoringAccumulates(AsWritten, cfg, oracle, st, m);
  }

  /** Corrected: with string keys throughout, memory stays string-keyed. */
  lemma IntendedStaysNamed(cfg: Config, oracle: Oracle, st: State, m: Message)
    requires NamedOnly(st.mem)
    ensures NamedOnly(Handle(Intended, cfg, oracle, st, m).next.mem)
  {
  }

  /**
   * Corrected: `!me` finds exactly the users the file has, and a scored
   * message continues the file's totals instead of restarting them.
   */
  lemma IntendedKeepsTotals(cfg: Config, oracle: Oracle, st: State, m: Message)
    requires ScanMessage(cfg, m)
    requires Consistent(st) && NamedOnly(st.mem)
    ensures var r := Handle(Intended, cfg, oracle, st, m);
      var id := IntToString(m.authorId);
      && (ParseCommand(m.content) == MeCommand ==> (r.reply == Send(NotFoundEmbed) <==> id !in st.disk))
      && (ParseCommand(m.content) == ScoreCommand && RepliesFit(cfg.templates, oracle, m.content) ==>
            id in r.next.disk &&
            forall c :: r.next.disk[id].Get(c) ==
              (if id in st.disk then st.disk[id] else DefaultScores()).Get(c) + Increments(Intended, cfg, oracle, m).Get(c))
  {
    var id := IntToString(m.authorId);
    assert !Shadowed(st.mem, id);
    assert StrId(id) in st.mem <==> id in st.disk;
    if ParseCommand(m.content) == MeCommand {
      MeLooksUpStringKey(Intended, cfg, oracle, st, m);
    } else if ParseCommand(m.content) == ScoreCommand && RepliesFit(cfg.templates, oracle, m.content) {
      ScoringAccumulates(Intended, cfg, oracle, st, m);
    }
  }
}
