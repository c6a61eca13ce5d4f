/** The llama.cpp runtime (llama_runtime.py): one live sequence serves cached, appended,
    replayed and branch-restored requests, with early exits everywhere. The model itself is
    an arbitrary function from token sequences to logits. */
module LlamaRuntime {
  import opened Wrappers

  datatype Logit = Finite(value: real) | PlusInfinity | MinusInfinity | NotANumber

  /** What a call ends in: a value, or an exception. */
  datatype Outcome<+T> = Returned(value: T) | Raised

  /** A serialised copy of sequence 0: the tokens whose keys and values it holds. */
  datatype SequenceState = SequenceState(tokens: seq<int>)

  predicate AllFinite(values: seq<Logit>) {
    forall i :: 0 <= i < |values| ==> values[i].Finite?
  }

  /** How a low-level call ends: it works, or it fails and leaves this behind. */
  datatype Effect = Works | Fails(kv: seq<int>, nTokens: nat, decoded: seq<int>)

  /** The live llama.cpp context. Which of its calls fail, and what that leaves behind, is an input.
      The ghost counters of failed calls, and of failed clears among them, let callers say what a
      run without failures does. */
  class Llama {
    const model: seq<int> -> seq<Logit>
    const vocabulary: nat
    const effect: nat -> Effect
    var kv: seq<int>        // tokens with live keys and values
    var nTokens: nat        // where the next batch is positioned
    var decoded: seq<int>   // what the current logits were computed from
    var calls: nat
    ghost var faults: nat
    ghost var wipes: nat

    constructor (model: seq<int> -> seq<Logit>, vocabulary: nat, effect: nat -> Effect)
      ensures this.model == model && this.vocabulary == vocabulary && this.effect == effect && kv == [] && nTokens == 0 && calls == 0
    {
      this.model, this.vocabulary, this.effect := model, vocabulary, effect;
      kv, nTokens, decoded, calls, faults, wipes := [], 0, [], 0, 0, 0;
    }

    predicate WorksAt(n: nat) {
      effect(n).Works?
    }

    ghost predicate HasUsable(tokens: seq<int>, finite: bool) {
      |model(tokens)| == vocabulary && (finite ==> AllFinite(model(tokens)))
    }

    /** Drop what lies beyond nTokens, then decode the batch there. */
    method Eval(tokens: seq<int>) returns (ok: bool)
      modifies this`kv, this`nTokens, this`decoded, this`calls, this`faults
      ensures ok == WorksAt(old(calls)) && calls == old(calls) + 1
      ensures ok && old(nTokens) <= |old(kv)| && tokens != [] ==>
                kv == old(kv)[..old(nTokens)] + tokens && nTokens == |kv| && decoded == kv
      ensures faults == old(faults) + if ok then 0 else 1
    {
      var e := effect(calls);
      calls := calls + 1;
      ok := e.Works?;
      if !ok {
        kv, nTokens, decoded, faults := e.kv, e.nTokens, e.decoded, faults + 1;
      } else if nTokens <= |kv| {
        kv := kv[..nTokens] + tokens;
        if tokens != [] { decoded := kv; }
        nTokens := nTokens + |tokens|;
      } else {
        kv, nTokens, decoded := *, *, *;
      }
    }

    method Clear() returns (ok: bool)
      modifies this`kv, this`nTokens, this`calls, this`faults, this`wipes
      ensures ok == WorksAt(old(calls)) && calls == old(calls) + 1
      ensures if ok then kv == [] && nTokens == 0
              else kv == effect(old(calls)).kv && nTokens == effect(old(calls)).nTokens
      ensures faults == old(faults) + if ok then 0 else 1
      ensures wipes == old(wipes) + if ok then 0 else 1
    {
      var e := effect(calls);
      calls := calls + 1;
      ok := e.Works?;
      if ok { kv, nTokens := [], 0; } else { kv, nTokens, faults, wipes := e.kv, e.nTokens, faults + 1, wipes + 1; }
    }

    /** The logits of the last decode, when they have the vocabulary's size and are finite if asked. */
    method CopyLastLogits(requireFinite: bool) returns (r: Outcome<seq<Logit>>)
      modifies this`calls, this`faults
      ensures calls == old(calls) + 1
      ensures r == if WorksAt(old(calls)) && HasUsable(decoded, requireFinite) then Returned(model(decoded)) else Raised
      ensures faults == old(faults) + if WorksAt(old(calls)) then 0 else 1
    {
      var logits := model(decoded);
      var e := effect(calls);
      calls := calls + 1;
      if e.Fails? { faults := faults + 1; }
      if e.Fails? || |logits| != vocabulary || (requireFinite && !AllFinite(logits)) { return Raised; }
      r := Returned(logits);
    }

    method SaveSequence() returns (r: Outcome<SequenceState>)
      modifies this`calls, this`faults
      ensures calls == old(calls) + 1
      ensures r == if WorksAt(old(calls)) then Returned(SequenceState(kv)) else Raised
      ensures faults == old(faults) + if r.Returned? then 0 else 1
    {
      var e := effect(calls);
      calls := calls + 1;
      r := if e.Works? then Returned(SequenceState(kv)) else Raised;
      if r.Raised? { faults := faults + 1; }
    }

    /** Replaces the sequence; the position of the next batch is the caller's to set. */
    method LoadSequence(state: SequenceState) returns (ok: bool)
      modifies this`kv, this`calls, this`faults
      ensures ok == WorksAt(old(calls)) && calls == old(calls) + 1
      ensures kv == if ok then state.tokens else effect(old(calls)).kv
      ensures faults == old(faults) + if ok then 0 else 1
    {
      var e := effect(calls);
      calls := calls + 1;
      ok := e.Works?;
      if ok { kv := state.tokens; } else { kv, faults := e.kv, faults + 1; }
    }
  }

  // ---------------------------------------------------------------------------------
  // Selecting the requested values.

  /** The full-vocabulary softmax is left abstract: its normaliser, and the logarithm that
      splits the mass among several infinite logits. */
  datatype Softmax = Softmax(normalizer: seq<Logit> -> real, logCount: nat -> real)

  /** How many logits are infinite. */
  function Infinite(values: seq<Logit>): (n: nat)
    ensures n == |InfiniteAt(values)|
  {
    if values == [] then 0
    else
      var front := values[..|values| - 1];
      assert InfiniteAt(values) == if values[|values| - 1].PlusInfinity? then InfiniteAt(front) + {|values| - 1} else InfiniteAt(front);
      Infinite(front) + if values[|values| - 1].PlusInfinity? then 1 else 0
  }

  ghost function InfiniteAt(values: seq<Logit>): set<nat> {
    set i: nat | i < |values| && values[i].PlusInfinity?
  }

  function Minus(x: Logit, n: real): Logit {
    if x.Finite? then Finite(x.value - n) else x
  }

  /** The allowed values of one logits vector, raw or as log probabilities. */
  function Select(softmax: Softmax, values: seq<Logit>, allowed: seq<int>, normalize: bool): (r: Outcome<seq<Logit>>)
    requires forall i :: 0 <= i < |allowed| ==> 0 <= allowed[i] < |values|
    ensures r.Returned? ==> |r.value| == |allowed|
  {
    if !normalize then Returned(seq(|allowed|, i requires 0 <= i < |allowed| => values[allowed[i]]))
    else if NotANumber in values then Raised
    else if PlusInfinity in values then
      Returned(seq(|allowed|, i requires 0 <= i < |allowed| =>
        if values[allowed[i]].PlusInfinity? then Finite(-softmax.logCount(Infinite(values))) else MinusInfinity))
    else if forall i :: 0 <= i < |values| ==> !values[i].Finite? then Returned(seq(|allowed|, i => MinusInfinity))
    else Returned(seq(|allowed|, i requires 0 <= i < |allowed| => Minus(values[allowed[i]], softmax.normalizer(values))))
  }

  /** What one allowed token gets, by the definition of the log of a softmax: equal shares of the whole
      mass for infinite logits, nothing for what is not infinite beside them, nothing for minus
      infinity, and else the logit less the normaliser. */
  ghost predicate LogProbability(softmax: Softmax, logits: seq<Logit>, token: int, value: Logit)
    requires 0 <= token < |logits|
  {
    if logits[token].PlusInfinity? then value == Finite(-softmax.logCount(|InfiniteAt(logits)|))
    else if InfiniteAt(logits) != {} || logits[token].MinusInfinity? then value == MinusInfinity
    else logits[token].Finite? && value == Finite(logits[token].value - softmax.normalizer(logits))
  }

  /** The values selected, token by token: raw logits as they are, or log probabilities, which there
      are exactly if no logit is undefined. */
  lemma SelectExactly(softmax: Softmax, values: seq<Logit>, allowed: seq<int>, normalize: bool)
    requires forall i :: 0 <= i < |allowed| ==> 0 <= allowed[i] < |values|
    ensures var r := Select(softmax, values, allowed, normalize);
            && (r.Raised? <==> normalize && NotANumber in values)
            && (r.Returned? ==> |r.value| == |allowed| && forall k :: 0 <= k < |allowed| ==>
                  if normalize then LogProbability(softmax, values, allowed[k], r.value[k]) else r.value[k] == values[allowed[k]])
  {
    if PlusInfinity in values {
      var i :| 0 <= i < |values| && values[i] == PlusInfinity;
      assert i in InfiniteAt(values);
    } else {
      assert InfiniteAt(values) == {};
    }
    forall k | 0 <= k < |allowed| ensures values[allowed[k]] in values {}
  }

  /** Log probabilities of finite logits differ as the logits do. */
  lemma DifferencesStay(softmax: Softmax, logits: seq<Logit>, s: int, t: int, x: Logit, y: Logit)
    requires 0 <= s < |logits| && 0 <= t < |logits| && logits[s].Finite? && logits[t].Finite? && InfiniteAt(logits) == {}
    requires LogProbability(softmax, logits, s, x) && LogProbability(softmax, logits, t, y)
    ensures x.Finite? && y.Finite? && x.value - y.value == logits[s].value - logits[t].value
  {}

  /** Selecting position by position is selecting from the vector: the order and the repetition
      of the requested tokens do not matter. */
  lemma SelectPointwise(softmax: Softmax, values: seq<Logit>, allowed: seq<int>, normalize: bool, i: nat)
    requires forall j :: 0 <= j < |allowed| ==> 0 <= allowed[j] < |values|
    requires i < |allowed|
    ensures Select(softmax, values, allowed, normalize).Returned? <==> Select(softmax, values, [allowed[i]], normalize).Returned?
    ensures Select(softmax, values, allowed, normalize).Returned? ==>
              Select(softmax, values, allowed, normalize).value[i] == Select(softmax, values, [allowed[i]], normalize).value[0]
  {}

  // ---------------------------------------------------------------------------------
  // The backend.

  /** A root as callers hold it. */
  datatype ContinuationRoot = ContinuationRoot(state: Option<SequenceState>, nTokens: nat, replayTokens: seq<int>)

  /** Roots come from CaptureContinuationRoot only. */
  predicate Captured(kind: ContextKind, root: ContinuationRoot) {
    root.nTokens == |root.replayTokens| && root.replayTokens != []
    && match kind
       case RawContext => root.state.None?
       case TestContext => root.state == Some(SequenceState(root.replayTokens))
  }

  /** Production exposes the raw llama.cpp context; tests substitute one that copies states. */
  datatype ContextKind = RawContext | TestContext

  datatype Snapshot = Snapshot(epoch: nat, logits: seq<Logit>, root: ContinuationRoot)

  /** One requested branch. */
  datatype Branch = Branch(path: seq<int>, allowed: seq<int>)

  class LlamaCppBackend {
    const llama: Llama
    const kind: ContextKind
    const softmax: Softmax
    const nCtx: nat
    const encode: (string, string) -> seq<int>
    var epoch: nat
    var cachedTokens: Option<seq<int>>
    var cachedLogits: Option<seq<Logit>>
    var stateTokens: Option<seq<int>>
    var stateBuffer: Option<SequenceState>

    /** The encoders always produce at least one token: an empty context has the fallback token. */
    constructor (llama: Llama, kind: ContextKind, softmax: Softmax, nCtx: nat, encode: (string, string) -> seq<int>)
      requires forall before, after :: encode(before, after) != []
      ensures Valid() && this.llama == llama && this.kind == kind && this.encode == encode && cachedTokens.None?
    {
      this.llama, this.kind, this.softmax, this.nCtx, this.encode := llama, kind, softmax, nCtx, encode;
      epoch, cachedTokens, cachedLogits, stateTokens, stateBuffer := 0, None, None, None, None;
    }

    /** What every exit of every operation keeps, whatever fails: the cache is all there or all gone, a
        saved state is the state of its own tokens, and where it is that of the cached tokens, these
        are live. */
    ghost predicate Inv()
      reads this, llama
    {
      && (forall before, after :: encode(before, after) != [])
      && (cachedTokens.Some? <==> cachedLogits.Some?) && (cachedTokens.Some? ==> cachedTokens.value != [])
      && StateHonest() && (cachedTokens.Some? && stateTokens == cachedTokens ==> llama.kv == cachedTokens.value)
    }

    /** Cached tokens are exactly the live sequence. */
    ghost predicate Live()
      reads this, llama
    {
      cachedTokens.Some? ==> llama.kv == cachedTokens.value && llama.nTokens == |cachedTokens.value|
    }

    /** Cached logits are the model's for the cached tokens. */
    ghost predicate LogitsHonest()
      reads this, llama
    {
      cachedTokens.Some? && cachedLogits.Some? ==> cachedLogits.value == llama.model(cachedTokens.value)
    }

    /** The cache is honest. */
    ghost predicate Valid()
      reads this, llama
    {
      Inv() && Live() && LogitsHonest()
    }

    ghost predicate StateHonest()
      reads this
    {
      stateTokens.Some? ==> stateBuffer == Some(SequenceState(stateTokens.value))
    }

    ghost function Cold(before: string, after: string): seq<Logit> {
      llama.model(encode(before, after))
    }

    method ClearContinuationState()
      modifies this`stateTokens, this`stateBuffer
      ensures stateTokens.None? && stateBuffer.None?
    {
      stateTokens, stateBuffer := None, None;
    }

    /** A root holds the tokens and, where states are copied, whatever is live. */
    method CaptureContinuationRoot(tokens: seq<int>) returns (r: Outcome<ContinuationRoot>)
      requires tokens != []
      modifies llama`calls, llama`faults
      ensures r.Returned? ==> r.value.replayTokens == tokens && (kind.RawContext? || llama.kv == tokens ==> Captured(kind, r.value))
      ensures kind.RawContext? ==> r.Returned? && llama.calls == old(llama.calls)
      ensures llama.faults == old(llama.faults) + if r.Returned? then 0 else 1
    {
      match kind {
        case RawContext => r := Returned(ContinuationRoot(None, |tokens|, tokens));
        case TestContext =>
          var saved := llama.SaveSequence();
          if saved.Raised? { return Raised; }
          r := Returned(ContinuationRoot(Some(saved.value), |tokens|, tokens));
      }
    }

    // The three ways a snapshot is served.

    predicate Hits(tokens: seq<int>)
      reads this`cachedTokens
    {
      cachedTokens == Some(tokens)
    }

    predicate Appends(tokens: seq<int>)
      reads this`cachedTokens
    {
      cachedTokens.Some? && |tokens| > |cachedTokens.value| && tokens[..|cachedTokens.value|] == cachedTokens.value
    }

    predicate Replays(tokens: seq<int>)
      reads this`cachedTokens
    {
      !Hits(tokens) && !Appends(tokens)
    }

    /** The next batch follows what is live; only an append depends on it. */
    predicate Placed(tokens: seq<int>)
      reads this`cachedTokens, llama`kv, llama`nTokens
    {
      Appends(tokens) ==> llama.nTokens <= |llama.kv|
    }

    /** What is cached is right, as far as serving these tokens depends on it. */
    ghost predicate Sound(tokens: seq<int>)
      reads this, llama
    {
      LogitsHonest() && (Appends(tokens) ==> Live())
    }

    /** What ends up live if the forward works: the tokens after a replay, and after an append what is
        live up to the position, followed by what is new. */
    ghost function Reached(tokens: seq<int>): seq<int>
      reads this`cachedTokens, llama`kv, llama`nTokens
      requires Placed(tokens)
    {
      if Appends(tokens) then llama.kv[..llama.nTokens] + tokens[|cachedTokens.value|..] else tokens
    }

    /** How many calls it takes until the forward is refused; 0 if it is not. */
    ghost function RefusedAfter(tokens: seq<int>): nat
      reads this`cachedTokens, llama
      requires Placed(tokens)
    {
      var c := llama.calls;
      if Appends(tokens) then
        if !llama.WorksAt(c) then 1 else if !llama.WorksAt(c + 1) || !llama.HasUsable(Reached(tokens), true) then 2 else 0
      else
        if !llama.WorksAt(c) then 1 else if !llama.WorksAt(c + 1) then 2
        else if !llama.WorksAt(c + 2) || !llama.HasUsable(tokens, true) then 3 else 0
    }

    /** Bring the live sequence to `tokens`: append what is new, or clear and replay. */
    method Refresh(tokens: seq<int>) returns (r: Outcome<seq<Logit>>)
      requires tokens != []
      modifies llama
      ensures old(Replays(tokens)) && r.Returned? ==> r.value == llama.model(tokens) && llama.kv == tokens && llama.nTokens == |tokens|
      ensures old(Placed(tokens)) ==>
                && (r.Returned? <==> old(RefusedAfter(tokens)) == 0)
                && (r.Returned? ==> llama.kv == old(Reached(tokens)) && llama.nTokens == |llama.kv| && r.value == llama.model(llama.kv))
                && (r.Raised? ==> llama.calls == old(llama.calls) + old(RefusedAfter(tokens)))
      ensures r.Returned? ==> llama.calls == old(llama.calls) + if old(Appends(tokens)) then 2 else 3
      ensures llama.faults >= old(llama.faults) && llama.wipes >= old(llama.wipes)
      ensures r.Raised? && llama.faults == old(llama.faults) && old(Placed(tokens)) ==> !llama.HasUsable(old(Reached(tokens)), true)
    {
      var ok: bool;
      if cachedTokens.Some? && |tokens| > |cachedTokens.value| && tokens[..|cachedTokens.value|] == cachedTokens.value {
        ok := llama.Eval(tokens[|cachedTokens.value|..]);
      } else {
        ok := llama.Clear();
        if !ok { return Raised; }
        ok := llama.Eval(tokens);
        assert ok ==> llama.kv == tokens;
      }
      if !ok { return Raised; }
      r := llama.CopyLastLogits(true);
    }

    /** Over a cache that is right, any forward ends in its own tokens. */
    lemma SoundReaches(tokens: seq<int>)
      ensures Sound(tokens) || Replays(tokens) ==> Placed(tokens) && Reached(tokens) == tokens
    {
      if Sound(tokens) && Appends(tokens) {
        assert llama.kv[..llama.nTokens] == cachedTokens.value;
      }
    }

    /** A forward, and the cache after it. A refused forward clears what is live and drops the cache;
        only where clearing fails too does the cache outlive its sequence. */
    method Forward(tokens: seq<int>) returns (r: Outcome<seq<Logit>>)
      requires Inv() && tokens != [] && !Hits(tokens) && stateTokens.None?
      modifies this`cachedTokens, this`cachedLogits, llama
      ensures Inv() && llama.faults >= old(llama.faults) && llama.wipes >= old(llama.wipes)
      ensures r.Returned? ==> cachedTokens == Some(tokens) && cachedLogits == Some(r.value)
      ensures r.Returned? && old(Placed(tokens)) ==>
                r.value == llama.model(old(Reached(tokens))) && llama.kv == old(Reached(tokens)) && llama.nTokens == |llama.kv|
      ensures r.Returned? ==> llama.calls == old(llama.calls) + if old(Appends(tokens)) then 2 else 3
      ensures old(Sound(tokens)) ==> LogitsHonest() && (r.Returned? ==> Valid())
      ensures r.Raised? && llama.faults == old(llama.faults) && old(Placed(tokens)) ==> !llama.HasUsable(old(Reached(tokens)), true)
      ensures r.Raised? && (llama.wipes == old(llama.wipes) || old(cachedTokens).None?) ==> cachedTokens.None?
      ensures r.Raised? ==> cachedTokens.None? || (cachedTokens == old(cachedTokens) && cachedLogits == old(cachedLogits))
      ensures old(Placed(tokens)) ==>
                var n := old(RefusedAfter(tokens));
                && (r.Returned? <==> n == 0)
                && (n > 0 ==>
                      && llama.calls == old(llama.calls) + n + 1
                      && if llama.WorksAt(old(llama.calls) + n) then cachedTokens.None?
                         else llama.wipes > old(llama.wipes) && cachedTokens == old(cachedTokens) && cachedLogits == old(cachedLogits)
                              && llama.kv == llama.effect(old(llama.calls) + n).kv && llama.nTokens == llama.effect(old(llama.calls) + n).nTokens)
    {
      SoundReaches(tokens);
      r := Refresh(tokens);
      if r.Raised? {
        var cleared := llama.Clear();
        if !cleared { return Raised; }
        cachedTokens, cachedLogits := None, None;
        return Raised;
      }
      cachedTokens, cachedLogits := Some(tokens), Some(r.value);
    }

    /** A snapshot, whatever fails and whatever failed before. A replay is a cold forward and makes the
        cache honest again; a hit hands on what is cached; an append evaluates behind whatever is
        live. With an honest cache all three are cold forwards. The cache stays honest but for one
        exit: the forward is refused after some call, and clearing right behind it fails as well. */
    method CreateSnapshot(before: string, after: string) returns (r: Outcome<Snapshot>)
      requires Inv()
      modifies this, llama
      ensures Inv() && llama.faults >= old(llama.faults) && llama.wipes >= old(llama.wipes)
      // what is handed on
      ensures r.Returned? ==>
                && r.value.root.replayTokens == encode(before, after)
                && (kind.RawContext? || llama.kv == encode(before, after) ==> Captured(kind, r.value.root))
                && cachedTokens == Some(encode(before, after)) && cachedLogits == Some(r.value.logits)
                && r.value.epoch == epoch == old(epoch) + 1
      ensures r.Raised? ==> epoch == old(epoch)
      ensures r.Returned? && old(Sound(encode(before, after))) ==> r.value.logits == Cold(before, after)
      ensures r.Returned? && !old(Hits(encode(before, after))) && old(Placed(encode(before, after))) ==>
                r.value.logits == llama.model(old(Reached(encode(before, after)))) && llama.kv == old(Reached(encode(before, after)))
      ensures old(Hits(encode(before, after))) ==>
                unchanged(llama`kv, llama`nTokens, llama`decoded) && cachedTokens == old(cachedTokens) && cachedLogits == old(cachedLogits)
      // when it is denied
      ensures r.Raised? && old(Valid()) && llama.faults == old(llama.faults) ==> !llama.HasUsable(encode(before, after), true)
      ensures kind.RawContext? && old(Hits(encode(before, after))) ==> r.Returned? && llama.calls == old(llama.calls)
      ensures kind.RawContext? && !old(Hits(encode(before, after))) && old(Placed(encode(before, after))) ==>
                (r.Returned? <==> old(RefusedAfter(encode(before, after))) == 0)
      ensures kind.RawContext? && r.Returned? && !old(Hits(encode(before, after))) ==>
                llama.calls == old(llama.calls) + if old(Appends(encode(before, after))) then 2 else 3
      // what becomes of the cache
      ensures old(Valid()) && (r.Returned? || llama.wipes == old(llama.wipes) || old(cachedTokens).None?) ==> Valid()
      ensures old(Replays(encode(before, after))) && (r.Returned? || llama.wipes == old(llama.wipes)) ==> Valid()
      ensures old(Sound(encode(before, after))) ==> LogitsHonest()
      ensures !old(Hits(encode(before, after))) && old(Placed(encode(before, after))) ==>
                var n := old(RefusedAfter(encode(before, after)));
                n > 0 ==>
                  && r.Raised? && llama.calls == old(llama.calls) + n + 1
                  && if llama.WorksAt(old(llama.calls) + n) then Valid() && cachedTokens.None?
                     else && llama.wipes > old(llama.wipes) && cachedTokens == old(cachedTokens) && cachedLogits == old(cachedLogits)
                          && llama.kv == llama.effect(old(llama.calls) + n).kv && llama.nTokens == llama.effect(old(llama.calls) + n).nTokens
    {
      var tokens := encode(before, after);
      SoundReaches(tokens);
      if cachedTokens != Some(tokens) { ClearContinuationState(); }
      var logits: seq<Logit>;
      if cachedTokens == Some(tokens) && cachedLogits.Some? {
        logits := cachedLogits.value;
      } else {
        var evaluated := Forward(tokens);
        if evaluated.Raised? { return Raised; }
        logits := evaluated.value;
      }
      var root := CaptureContinuationRoot(tokens);
      if root.Raised? { return Raised; }
      epoch := epoch + 1;
      r := Returned(Snapshot(epoch, logits, root.value));
    }

    predicate PathOk(root: ContinuationRoot, b: Branch) {
      && b.path != [] && root.nTokens + |b.path| <= nCtx
      && (forall i :: 0 <= i < |b.path| ==> 0 <= b.path[i] < llama.vocabulary)
      && (forall i :: 0 <= i < |b.allowed| ==> 0 <= b.allowed[i] < llama.vocabulary)
    }

    /** The one right answer for a branch of a root: for each allowed token its logit behind root and
        path, or its log probability. */
    ghost predicate Answers(root: seq<int>, b: Branch, normalize: bool, values: seq<Logit>) {
      var logits := llama.model(root + b.path);
      && |logits| == llama.vocabulary && |values| == |b.allowed|
      && (forall k :: 0 <= k < |b.allowed| ==> 0 <= b.allowed[k] < llama.vocabulary)
      && forall k :: 0 <= k < |b.allowed| ==>
           if normalize then LogProbability(softmax, logits, b.allowed[k], values[k]) else values[k] == logits[b.allowed[k]]
    }

    /** Whether a branch has an answer that may be handed on at all. */
    ghost predicate Answerable(root: ContinuationRoot, b: Branch, normalize: bool) {
      && PathOk(root, b)
      && llama.HasUsable(root.replayTokens + b.path, !normalize)
      && (normalize ==> NotANumber !in llama.model(root.replayTokens + b.path))
    }

    /** The first branches have been answered, in order. */
    ghost predicate AnsweredUpTo(root: ContinuationRoot, branches: seq<Branch>, normalize: bool, outputs: seq<seq<Logit>>, n: nat) {
      |outputs| == n <= |branches|
      && forall i :: 0 <= i < n ==> Answerable(root, branches[i], normalize) && Answers(root.replayTokens, branches[i], normalize, outputs[i])
    }

    /** Evaluate one branch from a live root. */
    method EvaluateBranch(root: ContinuationRoot, b: Branch, normalize: bool) returns (r: Outcome<seq<Logit>>)
      requires PathOk(root, b) && llama.kv == root.replayTokens && llama.nTokens == |root.replayTokens|
      modifies llama
      ensures r.Returned? ==> Answers(root.replayTokens, b, normalize, r.value) && Answerable(root, b, normalize)
      ensures llama.faults >= old(llama.faults) && llama.wipes == old(llama.wipes)
      ensures r.Raised? && llama.faults == old(llama.faults) ==> !Answerable(root, b, normalize)
    {
      var ok := llama.Eval(b.path);
      if !ok { return Raised; }
      assert llama.kv == root.replayTokens + b.path;
      var logits := llama.CopyLastLogits(!normalize);
      if logits.Raised? { return Raised; }
      SelectExactly(softmax, logits.value, b.allowed, normalize);
      r := Select(softmax, logits.value, b.allowed, normalize);
    }

    ghost predicate Saved(root: ContinuationRoot)
      reads this
    {
      stateTokens == Some(root.replayTokens) && stateBuffer.Some?
    }

    /** Put the live sequence back to a root: from the test copy, or from the saved buffer. */
    method RestoreLiveRoot(root: ContinuationRoot) returns (r: Outcome<bool>)
      requires Captured(kind, root) && StateHonest()
      modifies llama
      ensures r == Returned(true) ==> llama.kv == root.replayTokens && llama.nTokens == |root.replayTokens|
      ensures llama.faults >= old(llama.faults) && llama.wipes >= old(llama.wipes)
      ensures llama.faults == old(llama.faults) && (kind.TestContext? || Saved(root)) ==> r == Returned(true)
    {
      match kind {
        case TestContext =>
          var ok := llama.Clear();
          if !ok { return Raised; }
          ok := llama.LoadSequence(root.state.value);
          if !ok { return Raised; }
          llama.nTokens := root.nTokens;
          r := Returned(true);
        case RawContext =>
          if stateTokens != Some(root.replayTokens) || stateBuffer.None? { return Returned(false); }
          var ok := llama.Clear();
          if !ok { return Raised; }
          ok := llama.LoadSequence(stateBuffer.value);
          if !ok { return Returned(false); }
          llama.nTokens := |root.replayTokens|;
          r := Returned(true);
      }
    }

    /** Make the root live: replay and save it once, or reload it, or find it already live. */
    method EstablishRoot(root: ContinuationRoot, liveRootIsCurrent: bool) returns (r: Outcome<SequenceState>)
      requires Captured(kind, root) && StateHonest()
      requires liveRootIsCurrent && Saved(root) ==> llama.kv == root.replayTokens
      modifies this`stateTokens, this`stateBuffer, llama
      ensures StateHonest() && llama.wipes >= old(llama.wipes)
      ensures r.Returned? ==>
                r.value == SequenceState(root.replayTokens) && llama.kv == root.replayTokens && llama.nTokens == |root.replayTokens|
      ensures llama.faults >= old(llama.faults) && (r.Raised? ==> llama.faults > old(llama.faults)) && (r.Returned? ==> Saved(root))
    {
      if stateTokens != Some(root.replayTokens) || stateBuffer.None? {
        var ok := llama.Clear();
        if !ok { return Raised; }
        ok := llama.Eval(root.replayTokens);
        if !ok { return Raised; }
        assert llama.kv == root.replayTokens;
        var saved := llama.SaveSequence();
        if saved.Raised? { return Raised; }
        stateTokens, stateBuffer := Some(root.replayTokens), Some(saved.value);
      } else if !(liveRootIsCurrent && llama.nTokens == |root.replayTokens|) {
        var ok := llama.Clear();
        if !ok { return Raised; }
        ok := llama.LoadSequence(stateBuffer.value);
        if !ok { return Raised; }
        llama.nTokens := |root.replayTokens|;
      }
      r := Returned(stateBuffer.value);
    }

    /** Raw context: one established root, rewound between branches. None: out of time or preempted. */
    method ContinueSingleSequence(root: ContinuationRoot, branches: seq<Branch>, normalize: bool, liveRootIsCurrent: bool)
      returns (r: Outcome<Option<seq<seq<Logit>>>>)
      requires Captured(kind, root) && StateHonest() && forall b :: b in branches ==> PathOk(root, b)
      requires liveRootIsCurrent && Saved(root) ==> llama.kv == root.replayTokens
      modifies this`stateTokens, this`stateBuffer, llama
      ensures StateHonest() && llama.wipes >= old(llama.wipes)
      ensures r.Returned? && r.value.Some? ==> Saved(root)
      ensures r.Returned? && r.value.Some? ==> AnsweredUpTo(root, branches, normalize, r.value.value, |branches|)
      ensures llama.faults >= old(llama.faults)
      ensures llama.faults == old(llama.faults) ==> Saved(root) && (r.Raised? ==> exists b :: b in branches && !Answerable(root, b, normalize))
    {
      var state := EstablishRoot(root, liveRootIsCurrent);
      if state.Raised? { return Raised; }
      var outputs: seq<seq<Logit>> := [];
      for n := 0 to |branches|
        invariant StateHonest() && AnsweredUpTo(root, branches, normalize, outputs, n)
        invariant n < |branches| ==> llama.kv == root.replayTokens && llama.nTokens == |root.replayTokens|
        invariant llama.faults >= old(llama.faults) && llama.wipes >= old(llama.wipes) && Saved(root)
      {
        assert branches[n] in branches;
        var timeUp: bool := *;
        if timeUp { return Returned(None); }
        var selected := EvaluateBranch(root, branches[n], normalize);
        if selected.Raised? { return Raised; }
        if if normalize then NotANumber in selected.value else !AllFinite(selected.value) { return Raised; }
        outputs := outputs + [selected.value];
        if n + 1 < |branches| {
          var preempted: bool := *;
          if preempted { return Returned(None); }
          var ok := llama.LoadSequence(state.value);
          if !ok { return Raised; }
          llama.nTokens := |root.replayTokens|;
        }
      }
      r := Returned(Some(outputs));
    }

    /** Test context: restore the copied root before every branch. */
    method ContinueByCopies(root: ContinuationRoot, branches: seq<Branch>, normalize: bool)
      returns (r: Outcome<Option<seq<seq<Logit>>>>, mutated: bool)
      requires Captured(kind, root) && kind.TestContext? && StateHonest() && forall b :: b in branches ==> PathOk(root, b)
      modifies llama
      ensures r.Returned? && r.value.Some? ==> AnsweredUpTo(root, branches, normalize, r.value.value, |branches|)
      ensures !mutated ==> unchanged(llama)
      ensures llama.faults >= old(llama.faults) && llama.wipes >= old(llama.wipes)
      ensures llama.faults == old(llama.faults) && r.Raised? ==> exists b :: b in branches && !Answerable(root, b, normalize)
    {
      mutated := false;
      var outputs: seq<seq<Logit>> := [];
      for n := 0 to |branches|
        invariant AnsweredUpTo(root, branches, normalize, outputs, n)
        invariant !mutated ==> unchanged(llama)
        invariant llama.faults >= old(llama.faults) && llama.wipes >= old(llama.wipes)
      {
        assert branches[n] in branches;
        var timeUp: bool := *;
        if timeUp { return Returned(None), mutated; }
        mutated := true;
        var restored := RestoreLiveRoot(root);
        if restored != Returned(true) { return Raised, mutated; }
        var selected := EvaluateBranch(root, branches[n], normalize);
        if selected.Raised? { return Raised, mutated; }
        outputs := outputs + [selected.value];
        var stop: bool := *;
        if stop { return Returned(None), mutated; }
      }
      r := Returned(Some(outputs));
    }

    /** Either nothing, or one vector per branch, each selected from the model's logits for the
        root followed by that branch, whatever is live and whatever fails. An honest cache stays
        honest, and a cache over an unknown sequence is dropped or has its tokens live again, but
        for a request that touches nothing. Without a failing llama call, only an unanswerable
        request raises, and a cached root stays cached. */
    method ContinueFromRoot(root: ContinuationRoot, paths: seq<seq<int>>, allowed: seq<seq<int>>, deadline: int, normalize: bool)
      returns (r: Outcome<Option<seq<seq<Logit>>>>)
      requires Inv() && Captured(kind, root)
      modifies this, llama
      ensures Inv() && llama.faults >= old(llama.faults) && llama.wipes >= old(llama.wipes)
      ensures old(Valid()) ==> Valid()
      ensures old(LogitsHonest()) ==> LogitsHonest()
      ensures cachedTokens.None? || cachedLogits == old(cachedLogits)
      ensures Live() || unchanged(llama)
      ensures kind.RawContext? && r.Returned? && r.value.Some? ==> Live()
      ensures r.Returned? && r.value.Some? ==>
                |paths| == |allowed| == |r.value.value|
                && forall i :: 0 <= i < |paths| ==> Answers(root.replayTokens, Branch(paths[i], allowed[i]), normalize, r.value.value[i])
      ensures r.Returned? && r.value.Some? ==> forall i :: 0 <= i < |paths| ==> Answerable(root, Branch(paths[i], allowed[i]), normalize)
      ensures deadline <= 0 ==> r == Returned(None) && unchanged(this, llama)
      ensures epoch == old(epoch)
      ensures cachedTokens == old(cachedTokens) || cachedTokens.None?
      ensures r.Raised? && llama.faults == old(llama.faults) ==>
                |paths| != |allowed| || exists i :: 0 <= i < |paths| && !Answerable(root, Branch(paths[i], allowed[i]), normalize)
      ensures old(cachedTokens) == Some(root.replayTokens) && llama.faults == old(llama.faults) ==> cachedTokens == old(cachedTokens)
    {
      if deadline <= 0 { return Returned(None); }
      if |paths| != |allowed| { return Raised; }
      var locked: bool := *;
      if !locked { return Returned(None); }
      var matches := cachedTokens == Some(root.replayTokens) && cachedLogits.Some?;
      var logits := if matches then cachedLogits else None;
      var branches := seq(|paths|, i requires 0 <= i < |paths| => Branch(paths[i], allowed[i]));
      var mutated := false;
      if exists i :: 0 <= i < |branches| && !PathOk(root, branches[i]) {
        r := Raised;
      } else {
        match kind {
          case RawContext =>
            mutated := true;
            r := ContinueSingleSequence(root, branches, normalize, matches);
          case TestContext => r, mutated := ContinueByCopies(root, branches, normalize);
        }
      }
      assert forall b :: b in branches && !Answerable(root, b, normalize) ==>
                           exists i :: 0 <= i < |paths| && !Answerable(root, Branch(paths[i], allowed[i]), normalize);
      var repaired := Repair(root, matches, logits, mutated);
      if !repaired { r := Raised; }
    }

    /** The finally block: keep the cache only if the root is live again. Clearing what is not may
        fail, with the cache gone already. */
    method Repair(root: ContinuationRoot, matches: bool, logits: Option<seq<Logit>>, mutated: bool) returns (ok: bool)
      requires Captured(kind, root) && StateHonest() && (forall before, after :: encode(before, after) != [])
      requires matches ==> cachedTokens == Some(root.replayTokens) && cachedLogits.Some? && logits == cachedLogits
      requires matches && !mutated ==> Inv()
      modifies this`cachedTokens, this`cachedLogits, llama
      ensures Inv() && llama.wipes >= old(llama.wipes)
      ensures if matches && !mutated then cachedTokens == old(cachedTokens) && cachedLogits == old(cachedLogits) && unchanged(llama) else Live()
      ensures cachedTokens.Some? ==> cachedLogits == logits
      ensures if matches then cachedTokens in {Some(root.replayTokens), None} else cachedTokens.None?
      ensures llama.faults >= old(llama.faults) && (!ok ==> llama.faults > old(llama.faults) && cachedTokens.None?)
      ensures matches && llama.faults == old(llama.faults) && (!mutated || kind.TestContext? || Saved(root)) ==>
                cachedTokens == Some(root.replayTokens)
    {
      var restored := false;
      ok := true;
      if matches {
        restored := !mutated;
        if mutated {
          var live := RestoreLiveRoot(root);
          restored := live == Returned(true);
        }
      }
      if restored {
        cachedTokens, cachedLogits := Some(root.replayTokens), logits;
      } else {
        cachedTokens, cachedLogits := None, None;
        ok := llama.Clear();
      }
    }

    /** Nothing of the private context is left: not cached, not saved, and, if clearing does not
        fail, not live. Whatever happened before, the cache is honest again. */
    method InvalidatePrivateState() returns (ok: bool)
      requires (forall before, after :: encode(before, after) != [])
      modifies this, llama
      ensures Valid() && cachedTokens.None? && cachedLogits.None? && stateTokens.None? && stateBuffer.None?
      ensures ok ==> llama.kv == [] && llama.nTokens == 0
      ensures ok <==> llama.faults == old(llama.faults)
      ensures llama.faults >= old(llama.faults) && llama.wipes >= old(llama.wipes)
    {
      cachedTokens, cachedLogits := None, None;
      ClearContinuationState();
      ok := llama.Clear();
    }

    // ---------------------------------------------------------------------------------
    // Whole runs.

    ghost predicate WellFormed(request: Request) {
      request.Continue? ==> Captured(kind, request.root)
    }

    /** What was handed on is what the model says. */
    ghost predicate Right(request: Request, reply: Reply) {
      match request
      case TakeSnapshot(before, after) =>
        reply.Snapshotted? && (reply.snapshot.Returned? ==> reply.snapshot.value.logits == Cold(before, after))
      case Continue(root, paths, allowed, _, normalize) =>
        && reply.Continued?
        && (reply.values.Returned? && reply.values.value.Some? ==>
              && |paths| == |allowed| == |reply.values.value.value|
              && forall i :: 0 <= i < |paths| ==> Answers(root.replayTokens, Branch(paths[i], allowed[i]), normalize, reply.values.value.value[i]))
      case Invalidate => reply.Invalidated?
    }

    /** One request after another; honest[i] says whether the cache is honest before request i. */
    method Serve(requests: seq<Request>) returns (replies: seq<Reply>, ghost honest: seq<bool>)
      requires Inv() && forall q :: q in requests ==> WellFormed(q)
      modifies this, llama
      ensures Inv() && |replies| == |requests| && |honest| == |requests| + 1
      ensures honest[0] == old(Valid()) && honest[|requests|] == Valid()
      // over an honest cache every answer is right, and continuations are right over any cache
      ensures forall i :: 0 <= i < |requests| && (honest[i] || !requests[i].TakeSnapshot?) ==> Right(requests[i], replies[i])
      // the cache is lost at a refused snapshot only, never without a failed clear, and an invalidation mends it
      ensures forall i :: 0 <= i < |requests| && honest[i] && !honest[i + 1] ==> requests[i].TakeSnapshot? && replies[i] == Snapshotted(Raised)
      ensures old(Valid()) && llama.wipes == old(llama.wipes) ==> forall i :: 0 <= i <= |requests| ==> honest[i]
      ensures forall i :: 0 <= i < |requests| && requests[i].Invalidate? ==> honest[i + 1]
    {
      replies, honest := [], [Valid()];
      ghost var start := Valid();
      for n := 0 to |requests|
        invariant Inv() && llama.wipes >= old(llama.wipes)
        invariant |replies| == n && |honest| == n + 1 && honest[0] == start && honest[n] == Valid()
        invariant forall i :: 0 <= i < n && (honest[i] || !requests[i].TakeSnapshot?) ==> Right(requests[i], replies[i])
        invariant forall i :: 0 <= i < n && honest[i] && !honest[i + 1] ==> requests[i].TakeSnapshot? && replies[i] == Snapshotted(Raised)
        invariant start && llama.wipes == old(llama.wipes) ==> forall i :: 0 <= i <= n ==> honest[i]
        invariant forall i :: 0 <= i < n && requests[i].Invalidate? ==> honest[i + 1]
      {
        assert requests[n] in requests;
        var reply := Handle(requests[n]);
        replies, honest := replies + [reply], honest + [Valid()];
      }
    }

    method Handle(request: Request) returns (reply: Reply)
      requires Inv() && WellFormed(request)
      modifies this, llama
      ensures Inv() && llama.wipes >= old(llama.wipes)
      ensures old(Valid()) || !request.TakeSnapshot? ==> Right(request, reply)
      ensures old(Valid()) && (request.TakeSnapshot? ==> llama.wipes == old(llama.wipes) || reply != Snapshotted(Raised)) ==> Valid()
      ensures request.Invalidate? ==> Valid()
    {
      match request {
        case TakeSnapshot(before, after) =>
          var snapshot := CreateSnapshot(before, after);
          reply := Snapshotted(snapshot);
        case Continue(root, paths, allowed, deadline, normalize) =>
          var values := ContinueFromRoot(root, paths, allowed, deadline, normalize);
          reply := Continued(values);
        case Invalidate =>
          var ok := InvalidatePrivateState();
          reply := Invalidated(ok);
      }
    }

    // ---------------------------------------------------------------------------------
    // The one bad exit at work: a context is cached, another one is refused and clearing behind it
    // fails, and a context that goes on from the first is then evaluated behind an empty sequence.

    ghost predicate Loses(a: seq<int>, b: seq<int>)
      reads this`cachedTokens, llama`calls
    {
      && cachedTokens.None? && kind.RawContext? && a != b && !(a < b) && llama.HasUsable(a, true)
      && forall n: nat :: llama.calls <= n < llama.calls + 8 ==>
           llama.effect(n) == if 4 <= n - llama.calls <= 5 then Fails([], 0, []) else Works
    }

    method LoseSequence(first: string, other: string)
      requires Valid() && Loses(encode(first, ""), encode(other, ""))
      modifies this, llama
      ensures Inv() && cachedTokens == Some(encode(first, ""))
      ensures llama.kv == [] && llama.nTokens == 0 && llama.calls == old(llama.calls) + 6
    {
      ghost var a, b := encode(first, ""), encode(other, "");
      ghost var start := llama.calls;
      assert llama.WorksAt(start) && llama.WorksAt(start + 1) && llama.WorksAt(start + 2);
      assert RefusedAfter(a) == 0;
      var cached := CreateSnapshot(first, "");
      assert cachedTokens == Some(a) && llama.calls == start + 3;
      assert llama.WorksAt(start + 3) && !llama.WorksAt(start + 4) && !llama.WorksAt(start + 5);
      assert Replays(b) && RefusedAfter(b) == 2;
      var refused := CreateSnapshot(other, "");
    }

    method LostSequence(first: string, other: string, longer: string) returns (r: Outcome<Snapshot>)
      requires Valid() && Loses(encode(first, ""), encode(other, ""))
      requires encode(first, "") < encode(longer, "") && llama.HasUsable(encode(longer, "")[|encode(first, "")|..], true)
      modifies this, llama
      ensures Inv() && r.Returned? && r.value.logits == llama.model(encode(longer, "")[|encode(first, "")|..])
      ensures cachedTokens == Some(encode(longer, "")) && cachedLogits == Some(r.value.logits)
    {
      ghost var a, c := encode(first, ""), encode(longer, "");
      ghost var start := llama.calls;
      assert llama.WorksAt(start + 6) && llama.WorksAt(start + 7);
      LoseSequence(first, other);
      assert Appends(c) && Placed(c) && Reached(c) == c[|a|..];
      assert RefusedAfter(c) == 0;
      r := CreateSnapshot(longer, "");
    }
  }

  datatype Request =
    | TakeSnapshot(before: string, after: string)
    | Continue(root: ContinuationRoot, paths: seq<seq<int>>, allowed: seq<seq<int>>, deadline: int, normalize: bool)
    | Invalidate

  datatype Reply =
    | Snapshotted(snapshot: Outcome<Snapshot>)
    | Continued(values: Outcome<Option<seq<seq<Logit>>>>)
    | Invalidated(ok: bool)

  /** A model whose logit is the length of what it has read: the context of two tokens is served with
      the logit of one, and not as a cold forward would serve it. */
  method LostSequenceIsWrong() returns (backend: LlamaCppBackend, r: Outcome<Snapshot>)
    ensures backend.Inv() && !backend.LogitsHonest() && backend.encode("ac", "") == [1, 3]
    ensures r.Returned? && r.value.logits == [Finite(1.0)] && backend.Cold("ac", "") == [Finite(2.0)]
  {
    var model := (s: seq<int>) => [Finite(|s| as real)];
    var effect := (n: nat) => if 4 <= n <= 5 then Fails([], 0, []) else Works;
    var encode := (before: string, after: string) => if before == "a" then [1] else if before == "b" then [2] else [1, 3];
    var llama := new Llama(model, 1, effect);
    backend := new LlamaCppBackend(llama, RawContext, Softmax(values => 0.0, n => 0.0), 8, encode);
    assert model([3]) == [Finite(1.0)] && model([1]) == [Finite(1.0)] && [1, 3][1..] == [3];
    r := backend.LostSequence("a", "b", "ac");
  }
}
