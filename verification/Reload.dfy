/**
  Applying newer copies of the token file while the server runs: the read, the
  pure decision, and the ordered steps that put a new token set in place.
 */
module Reload {
  import opened Wire
  import opened Registry
  import opened TokenFile
  import Quotes
  import Text

  datatype TokenSet = TokenSet(
    registry: TokenRegistry, symbols: seq<Symbol>, projection: Option<Projection>, generation: Option<int>)

  // ---- reading the bucket -------------------------------------------------------------

  /** One bucket response: its status, its generation header and whether the body fits. */
  datatype Response = Unreachable | Http(status: nat, generation: Option<int>, bodyOk: bool)

  datatype Read = Failed | NotModified | Copy(generation: int)

  const NOT_MODIFIED := 304

  function Classify(unless: Option<int>, r: Response): Read {
    if r.Unreachable? then Failed
    else if unless.Some? && r.status == NOT_MODIFIED then NotModified
    else if !(200 <= r.status < 300) then Failed
    else if r.generation.None? || r.generation.value <= 0 || !r.bodyOk then Failed
    else Copy(r.generation.value)
  }

  /**
    What the bucket promises for a conditional read while `latest` is its
    newest generation: 304 exactly for an unchanged object, otherwise the
    newest copy, named by its own header. It may also fail in any way.
   */
  predicate Honest(latest: int, unless: Option<int>, r: Response) {
    r.Http? ==>
      && (r.status == NOT_MODIFIED ==> unless == Some(latest))
      && (200 <= r.status < 300 ==> unless != Some(latest) && (r.generation.Some? ==> r.generation.value == latest))
  }

  // ---- the decision ------------------------------------------------------------------------

  datatype Decision =
    | Unchanged(generation: int)
    | SameRows(generation: int)
    | Apply(set_: TokenSet, removed: set<Symbol>, readdressed: set<Symbol>)
    | Reject(generation: int, cause: Cause)

  datatype Cause = BadCopy(error: FileError) | StaticField | NoTokenFile

  /** Address case aside, whether a restart-only field differs. */
  predicate StaticFieldChanged(a: Config, b: Config) {
    || a.chainId != b.chainId
    || Text.Lower(a.quoteToken) != Text.Lower(b.quoteToken)
    || a.port != b.port
    || a.wsUrl != b.wsUrl || a.consumer != b.consumer
    || a.reuseMinRemainingSecs != b.reuseMinRemainingSecs
  }

  function SetOf(built: Built, generation: int): TokenSet {
    TokenSet(built.registry, Symbols(built.config.tokens), Some(built.projection), Some(generation))
  }

  function Decide(c: StaticConfig, boot: Config, current: TokenSet, generation: int, file: Option<File>): Decision {
    if current.generation == Some(generation) then Unchanged(generation)
    else
      match Candidate(c, file)
      case Err(e) => Reject(generation, BadCopy(e))
      case Ok(built) =>
        if StaticFieldChanged(boot, built.config) then Reject(generation, StaticField)
        else if current.projection.None? then Reject(generation, NoTokenFile)
        else if SameAs(built.projection, current.projection.value) then SameRows(generation)
        else
          Apply(SetOf(built, generation),
                Removed(current.projection.value, built.projection),
                Readdressed(current.projection.value, built.projection))
  }

  // ---- the loop and the three ordered steps ---------------------------------------------------

  /** The static config and the bytes every generation names. */
  datatype World = World(config: StaticConfig, contents: int -> Option<File>)

  datatype Phase =
    | Rest
    | Swapped(forget: set<Symbol>)  // requests resolve against the new set; the list is still the old one
    | Listed(forget: set<Symbol>)   // the subscribed list follows; old quotes are still cached

  datatype State = State(
    tokens: TokenSet,
    listed: seq<Symbol>,
    rejected: Option<int>,
    phase: Phase,
    boot: Config,
    /** The generation of the last successful read, and the newest set known good. */
    lastSeen: int)

  /** What boot builds from a copy, or why it refuses to start. */
  function BootFrom(w: World, generation: int): Result<State, FileError> {
    match Candidate(w.config, w.contents(generation))
    case Err(e) => Err(e)
    case Ok(built) =>
      var tokens := SetOf(built, generation);
      Ok(State(tokens, tokens.symbols, None, Rest, built.config, generation))
  }

  datatype Event =
    | Poll(latest: int, response: Response)
    | ReplaceList
    | ForgetDone
    | Quiet

  function UnlessGeneration(s: State): Option<int> {
    Or(s.rejected, s.tokens.generation)
  }

  function ApplyDecision(s: State, d: Decision): State {
    match d
    case Unchanged(_) => s.(rejected := None)
    case Reject(generation, _) => s.(rejected := Some(generation))
    case SameRows(generation) =>
      s.(tokens := s.tokens.(generation := Some(generation)), rejected := None)
    case Apply(next, removed, readdressed) =>
      s.(tokens := next, phase := Swapped(removed + readdressed))
  }

  function Step(w: World, s: State, e: Event): State {
    match e
    case Poll(latest, response) =>
      if !s.phase.Rest? then s
      else
        (match Classify(UnlessGeneration(s), response)
         case Failed => s
         case NotModified => s
         case Copy(generation) =>
           ApplyDecision(s.(lastSeen := generation),
                         Decide(w.config, s.boot, s.tokens, generation, w.contents(generation))))
    case ReplaceList =>
      if s.phase.Swapped? then s.(listed := s.tokens.symbols, phase := Listed(s.phase.forget)) else s
    case ForgetDone =>
      if s.phase.Listed? then s.(rejected := None, phase := Rest) else s
    case Quiet => s
  }

  // ---- the invariant ----------------------------------------------------------------------------

  /** The running set is what boot would build from the copy it names. */
  ghost predicate Runs(w: World, tokens: TokenSet) {
    && tokens.generation.Some? && tokens.projection.Some?
    && var built := Candidate(w.config, w.contents(tokens.generation.value));
       && built.Ok?
       && tokens.registry == built.value.registry
       && tokens.symbols == Symbols(built.value.config.tokens)
       && SameAs(tokens.projection.value, built.value.projection)
       && SortedRows(tokens.projection.value.tokens)
       && tokens.symbols == Symbols(tokens.projection.value.tokens)
  }

  ghost predicate StaticFieldsOf(c: StaticConfig, config: Config) {
    && ChainIdOf(c) == Ok(config.chainId)
    && config.quoteToken == QuoteTokenOf(c)
    && config.port == c.port && config.wsUrl == c.wsUrl && config.consumer == c.consumer
    && config.reuseMinRemainingSecs == c.reuseMinRemainingSecs
  }

  ghost predicate Inv(w: World, s: State) {
    && Runs(w, s.tokens)
    && StaticFieldsOf(w.config, s.boot)
    && (!s.phase.Rest? ==> s.tokens.generation == Some(s.lastSeen))
    && (s.phase.Rest? ==>
          && UnlessGeneration(s) == Some(s.lastSeen)
          && (s.rejected.Some? <==> Candidate(w.config, w.contents(s.lastSeen)).Err?))
    && (!s.phase.Swapped? ==> s.listed == s.tokens.symbols)
  }

  lemma CandidateKeepsStaticFields(c: StaticConfig, f: Option<File>)
    requires Candidate(c, f).Ok?
    ensures StaticFieldsOf(c, Candidate(c, f).value.config)
    ensures SortedRows(Candidate(c, f).value.projection.tokens)
    ensures Candidate(c, f).value.config.tokens == Candidate(c, f).value.projection.tokens
  {
    ProjectionIsSorted(f.value, ChainIdOf(c).value);
  }

  lemma BuiltSetRuns(w: World, generation: int)
    requires Candidate(w.config, w.contents(generation)).Ok?
    ensures Runs(w, SetOf(Candidate(w.config, w.contents(generation)).value, generation))
  {
    CandidateKeepsStaticFields(w.config, w.contents(generation));
  }

  lemma BootEstablishesInv(w: World, generation: int)
    requires BootFrom(w, generation).Ok?
    ensures Inv(w, BootFrom(w, generation).value)
  {
    CandidateKeepsStaticFields(w.config, w.contents(generation));
    BuiltSetRuns(w, generation);
  }

  /**
    What a decision is, in terms of the copy alone. The two backstops, a
    changed static field and a set without a token file, never fire: the only
    refusals are the ones boot would make.
   */
  lemma DecisionMatchesBoot(w: World, s: State, generation: int)
    requires Inv(w, s)
    ensures var d := Decide(w.config, s.boot, s.tokens, generation, w.contents(generation));
            var built := Candidate(w.config, w.contents(generation));
            && (d.Reject? <==> built.Err? && s.tokens.generation != Some(generation))
            && (d.Reject? ==> d.cause == BadCopy(built.error) && d.generation == generation)
            && (s.tokens.generation == Some(generation) ==> d == Unchanged(generation) && built.Ok?)
            && (d.Unchanged? || d.SameRows? ==> d.generation == generation && built.Ok?)
            && (d.SameRows? ==> SameAs(built.value.projection, s.tokens.projection.value))
            && (d.Apply? ==> built.Ok? && d.set_ == SetOf(built.value, generation))
  {
    if Candidate(w.config, w.contents(generation)).Ok? {
      CandidateKeepsStaticFields(w.config, w.contents(generation));
    }
  }

  /** Keeping the older set for a copy with the same rows is running the newer copy. */
  lemma SameRowsRuns(w: World, tokens: TokenSet, generation: int)
    requires Runs(w, tokens)
    requires Candidate(w.config, w.contents(generation)).Ok?
    requires SameAs(Candidate(w.config, w.contents(generation)).value.projection, tokens.projection.value)
    ensures Runs(w, tokens.(generation := Some(generation)))
  {
    SameRowsBuildTheSame(w.config, w.contents(tokens.generation.value), w.contents(generation));
  }

  lemma StepKeepsInv(w: World, s: State, e: Event)
    requires Inv(w, s)
    ensures Inv(w, Step(w, s, e))
  {
    if e.Poll? && s.phase.Rest? {
      match Classify(UnlessGeneration(s), e.response)
      case Failed =>
      case NotModified =>
      case Copy(generation) =>
        DecisionMatchesBoot(w, s, generation);
        DecisionKeepsInv(w, s, generation);
    }
  }

  lemma DecisionKeepsInv(w: World, s: State, generation: int)
    requires Inv(w, s) && s.phase.Rest?
    ensures Inv(w, ApplyDecision(s.(lastSeen := generation),
                                 Decide(w.config, s.boot, s.tokens, generation, w.contents(generation))))
  {
    DecisionMatchesBoot(w, s, generation);
    var d := Decide(w.config, s.boot, s.tokens, generation, w.contents(generation));
    hide Decide, Candidate;
    match d
    case Unchanged(_) =>
    case Reject(_, _) =>
    case SameRows(_) => SameRowsRuns(w, s.tokens, generation);
    case Apply(next, _, _) => BuiltSetRuns(w, generation);
  }

  // ---- runs --------------------------------------------------------------------------------------

  function After(w: World, first: State, events: seq<Event>, n: nat): State
    requires n <= |events|
  {
    if n == 0 then first else Step(w, After(w, first, events, n - 1), events[n - 1])
  }

  lemma {:induction false} RunKeepsInv(w: World, first: State, events: seq<Event>, n: nat)
    requires Inv(w, first) && n <= |events|
    ensures Inv(w, After(w, first, events, n))
  {
    hide Inv, Step;
    if n > 0 {
      RunKeepsInv(w, first, events, n - 1);
      StepKeepsInv(w, After(w, first, events, n - 1), events[n - 1]);
    }
  }

  /**
    Live reload equals restart. After any run from boot, if the last copy seen
    is one boot accepts, then the running registry and symbol list are what
    boot would build from that very copy, and between applies so is the
    subscribed list. This includes copies with the same rows, for which the
    older set is kept.
   */
  lemma LiveReloadEqualsRestart(w: World, g0: int, events: seq<Event>, n: nat)
    requires BootFrom(w, g0).Ok? && n <= |events|
    ensures var s := After(w, BootFrom(w, g0).value, events, n);
            BootFrom(w, s.lastSeen).Ok? ==>
              var restarted := BootFrom(w, s.lastSeen).value;
              && s.tokens.projection.Some? && restarted.tokens.projection.Some?
              && s.tokens.registry == restarted.tokens.registry
              && s.tokens.symbols == restarted.tokens.symbols
              && SameAs(s.tokens.projection.value, restarted.tokens.projection.value)
              && s.tokens.generation == restarted.tokens.generation
              && (s.phase.Rest? ==> s.listed == restarted.listed && s.rejected == restarted.rejected)
  {
    BootEstablishesInv(w, g0);
    RunKeepsInv(w, BootFrom(w, g0).value, events, n);
    var s := After(w, BootFrom(w, g0).value, events, n);
    hide Inv, After, BootFrom;
    if BootFrom(w, s.lastSeen).Ok? {
      RunsLikeRestart(w, s);
    }
  }

  lemma RunsLikeRestart(w: World, s: State)
    requires Inv(w, s) && BootFrom(w, s.lastSeen).Ok?
    ensures var restarted := BootFrom(w, s.lastSeen).value;
            && s.tokens.projection.Some? && restarted.tokens.projection.Some?
            && s.tokens.registry == restarted.tokens.registry
            && s.tokens.symbols == restarted.tokens.symbols
            && SameAs(s.tokens.projection.value, restarted.tokens.projection.value)
            && s.tokens.generation == restarted.tokens.generation
            && (s.phase.Rest? ==> s.listed == restarted.listed && s.rejected == restarted.rejected)
  {
    hide Candidate;
  }

  /** A copy boot would refuse changes nothing but the refusal mark. */
  lemma RefusedCopyChangesNothing(w: World, s: State, latest: int, response: Response)
    requires Inv(w, s) && s.phase.Rest?
    requires Classify(UnlessGeneration(s), response).Copy?
    requires BootFrom(w, Classify(UnlessGeneration(s), response).generation).Err?
    ensures var t := Step(w, s, Poll(latest, response));
            && t.tokens == s.tokens && t.listed == s.listed && t.phase == Rest
            && t.rejected == Some(Classify(UnlessGeneration(s), response).generation)
  {
    DecisionMatchesBoot(w, s, Classify(UnlessGeneration(s), response).generation);
  }

  /**
    The conditional read. At every poll the generation it is conditional on is
    the last one read successfully, so unchanged is exactly a 304 (section
    15.4.5 of RFC 9110). Against an honest bucket a new upload is
    never reported unchanged, the copy seen last is never downloaded again, and
    the instance is marked invalid exactly while that copy is one boot refuses.
   */
  lemma ConditionalReadTracksLastSeen(w: World, g0: int, events: seq<Event>, n: nat, latest: int, r: Response)
    requires BootFrom(w, g0).Ok? && n <= |events|
    requires After(w, BootFrom(w, g0).value, events, n).phase.Rest?
    requires Honest(latest, UnlessGeneration(After(w, BootFrom(w, g0).value, events, n)), r)
    ensures var s := After(w, BootFrom(w, g0).value, events, n);
            var read := Classify(UnlessGeneration(s), r);
            && UnlessGeneration(s) == Some(s.lastSeen)
            && (read.NotModified? <==> r.Http? && r.status == 304)
            && (read.Copy? <==>
                r.Http? && 200 <= r.status < 300 && r.generation.Some? && r.generation.value >= 1 && r.bodyOk)
            && (read.NotModified? ==> latest == s.lastSeen)
            && (read.Copy? ==> read.generation == latest && latest != s.lastSeen)
            && (s.rejected.Some? <==> BootFrom(w, s.lastSeen).Err?)
            && (read.Copy? ==> Step(w, s, Poll(latest, r)).lastSeen == latest)
            && (!read.Copy? ==> Step(w, s, Poll(latest, r)) == s)
  {
    BootEstablishesInv(w, g0);
    RunKeepsInv(w, BootFrom(w, g0).value, events, n);
    var s := After(w, BootFrom(w, g0).value, events, n);
    LastSeenIsTheReadCopy(w, s, latest, r);
  }

  lemma LastSeenIsTheReadCopy(w: World, s: State, latest: int, r: Response)
    requires Inv(w, s) && s.phase.Rest?
    ensures var read := Classify(UnlessGeneration(s), r);
            && (read.Copy? ==> Step(w, s, Poll(latest, r)).lastSeen == read.generation)
            && (!read.Copy? ==> Step(w, s, Poll(latest, r)) == s)
  {
  }

  /** Only 304 on a conditional read counts as unchanged; any other non-2xx answer is an error. */
  lemma OnlyNotModifiedIsUnchanged(unless: Option<int>, r: Response)
    ensures Classify(unless, r).NotModified? <==> r.Http? && r.status == 304 && unless.Some?
    ensures Classify(unless, r).Copy? ==> r.Http? && 200 <= r.status < 300 && r.generation == Some(Classify(unless, r).generation)
  {
  }

  // ---- the reloader as the server updates it ---------------------------------------------------

  class Reloader {
    var tokens: TokenSet
    var listed: seq<Symbol>
    var rejected: Option<int>
    const pricing: Quotes.QuoteCache

    constructor (tokens: TokenSet, pricing: Quotes.QuoteCache)
      ensures this.tokens == tokens && listed == tokens.symbols && rejected == None && this.pricing == pricing
    {
      this.tokens, this.listed, this.rejected, this.pricing := tokens, tokens.symbols, None, pricing;
    }

    /** The running state at rest, for a reloader that has last seen `lastSeen`. */
    ghost function Contents(boot: Config, lastSeen: int): State
      reads this
    {
      State(tokens, listed, rejected, Rest, boot, lastSeen)
    }

    /** `apply`: swap the set, then the list, then drop the cached quotes, in this order. */
    method ApplyAll(w: World, d: Decision, ghost boot: Config, ghost lastSeen: int)
      modifies this, pricing
      ensures var decided := ApplyDecision(old(Contents(boot, lastSeen)), d);
              Contents(boot, lastSeen) == Step(w, Step(w, decided, ReplaceList), ForgetDone)
      ensures pricing.Contents()
              == if d.Apply? then Quotes.Apply(old(pricing.Contents()), Quotes.Evict(d.removed + d.readdressed))
                 else old(pricing.Contents())
    {
      match d {
        case Unchanged(_) =>
          rejected := None;
        case Reject(generation, _) =>
          rejected := Some(generation);
        case SameRows(generation) =>
          tokens := tokens.(generation := Some(generation));
          rejected := None;
        case Apply(next, removed, readdressed) =>
          tokens := next;
          listed := next.symbols;
          pricing.EvictSymbols(removed + readdressed);
          rejected := None;
      }
    }
  }
}
