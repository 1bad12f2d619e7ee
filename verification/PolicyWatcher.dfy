/**
 The bundle loader and the hot watcher as they run: one call at a time, while the disk changes
 underneath. Every tick they make is a path of the step machine of HotReload, so what holds on
 all its runs holds of them.
 */
module PolicyWatcher {
  import opened Options
  import opened HotReload
  import opened Traces

  /** What the disk holds when a step is taken, and whether the call made there succeeds. */
  datatype Moment = Moment(bundle: Option<File>, sig: Option<Signature>, ok: bool)

  /** The moment at which the step in a given phase is taken. */
  type Environment = Phase -> Moment

  /** The disk as a step finds it, after any number of writes. */
  function See(s: State, m: Moment): State {
    s.(bundle := m.bundle, sig := m.sig, used := if m.bundle.Some? then s.used + {m.bundle.value.mtime} else s.used)
  }

  function StepIn(w: World, s: State, env: Environment): State {
    Advance(w, See(s, env(s.phase)), env(s.phase).ok)
  }

  predicate InLoad(p: Phase) {
    p.Loading? || p.Reading? || p.Lookup? || p.Verifying? || p.Compiling? || p.Instantiating?
  }

  /** The loader's steps, up to an engine to swap in or a failure. */
  function Load(w: World, s: State, env: Environment): (t: State)
    ensures InLoad(s.phase) && s.phase.mod.Some? ==> t.phase.Idle? || (t.phase.Swapping? && t.phase.mod.Some?)
    decreases Rank(s.phase)
  {
    if InLoad(s.phase) then Load(w, StepIn(w, s, env), env) else s
  }

  /** A whole tick: the poller's stat and comparison, the load if the time is new, and the swap. */
  function TickIn(w: World, s: State, env: Environment): (t: State)
    requires s.phase.Idle?
    ensures t.phase.Idle?
  {
    var stated := StepIn(w, s, env);
    if stated.phase.Idle? then stated
    else
      var loaded := Load(w, StepIn(w, stated, env), env);
      if loaded.phase.Swapping? then StepIn(w, loaded, env) else loaded
  }

  class BundleLoader {
    var cache: Option<CacheEntry>

    constructor ()
      ensures cache == None
    {
      cache := None;
    }

    method LoadBundle(w: World, env: Environment, mod: Option<int>, ghost s: State) returns (engine: Option<Engine>)
      requires s.phase == Loading(mod) && s.cache == cache
      modifies this
      ensures var t := Load(w, s, env);
              && cache == t.cache && t.current == s.current && t.lastMod == s.lastMod
              && t.phase == match engine { case Some(e) => Swapping(mod, e) case None => Abandon(s, mod).phase }
    {
      var info := env(Loading(mod));
      ghost var at := StepIn(w, s, env);
      assert Load(w, s, env) == Load(w, at, env);
      if !info.ok || info.bundle.None? {
        return None;
      }
      var modTime := info.bundle.value.mtime;
      var file := env(Reading(mod, modTime));
      at := StepIn(w, at, env);
      assert Load(w, s, env) == Load(w, at, env);
      if !file.ok || file.bundle.None? {
        return None;
      }
      var wasm := file.bundle.value.bytes;
      at := StepIn(w, at, env);
      assert Load(w, s, env) == Load(w, at, env);
      if cache.Some? && cache.value.modTime == modTime {
        engine := Instantiate(w, env, mod, cache.value.source, at);
        return;
      }
      engine := Compile(w, env, mod, modTime, wasm, at);
    }

    /** Bytes not in the cache: verify them if there is a key, compile them, remember them. */
    method Compile(w: World, env: Environment, mod: Option<int>, modTime: int, wasm: Bytes, ghost s: State)
      returns (engine: Option<Engine>)
      requires s.phase == (if w.keyed then Verifying(mod, modTime, wasm) else Compiling(mod, modTime, wasm))
      requires s.cache == cache
      modifies this
      ensures var t := Load(w, s, env);
              && cache == t.cache && t.current == s.current && t.lastMod == s.lastMod
              && t.phase == match engine { case Some(e) => Swapping(mod, e) case None => Abandon(s, mod).phase }
    {
      ghost var at := s;
      if w.keyed {
        var check := env(Verifying(mod, modTime, wasm));
        at := StepIn(w, s, env);
        assert Load(w, s, env) == Load(w, at, env);
        if !check.ok || check.sig.None? || !w.verifies(wasm, check.sig.value) {
          return None;
        }
      }
      at := StepIn(w, at, env);
      assert Load(w, s, env) == Load(w, at, env);
      if !env(Compiling(mod, modTime, wasm)).ok || !w.compiles(wasm) {
        return None;
      }
      cache := Some(CacheEntry(wasm, modTime));
      engine := Instantiate(w, env, mod, wasm, at);
    }

    method Instantiate(w: World, env: Environment, mod: Option<int>, source: Bytes, ghost s: State)
      returns (engine: Option<Engine>)
      requires s.phase == Instantiating(mod, source)
      ensures var t := Load(w, s, env);
              && t.cache == s.cache && t.current == s.current && t.lastMod == s.lastMod
              && t.phase == match engine { case Some(e) => Swapping(mod, e) case None => Abandon(s, mod).phase }
    {
      assert Load(w, s, env) == StepIn(w, s, env);
      if !env(Instantiating(mod, source)).ok || !w.instantiates(source) {
        return None;
      }
      return Some(Engine(source));
    }
  }

  class HotWatcher {
    const loader: BundleLoader
    var current: Engine
    var lastMod: Option<int>

    /** The watcher stands where the step machine stands. */
    ghost predicate StandsAt(s: State)
      reads this, loader
    {
      s.phase.Idle? && s.current == Some(current) && s.lastMod == lastMod && s.cache == loader.cache
    }

    constructor (loader: BundleLoader, initial: Engine, w: World, env: Environment, ghost s: State)
      requires s.phase == Seeding && s.current == Some(initial) && s.cache == loader.cache
      ensures StandsAt(StepIn(w, s, env)) && this.loader == loader
    {
      this.loader := loader;
      current := initial;
      var stat := env(Seeding);
      if stat.ok && stat.bundle.Some? {
        lastMod := Some(stat.bundle.value.mtime);
      } else {
        lastMod := None;
      }
    }

    /** One tick does what the step machine does; only a swap changes what is served. */
    method CheckAndReload(w: World, env: Environment, ghost s: State) returns (swapped: bool)
      requires StandsAt(s)
      modifies this, loader
      ensures StandsAt(TickIn(w, s, env))
      ensures !swapped ==> current == old(current) && lastMod == old(lastMod)
      ensures swapped ==> env(Idle).bundle.Some? && lastMod == Some(env(Idle).bundle.value.mtime) != old(lastMod)
    {
      var stat := env(Idle);
      if !stat.ok || stat.bundle.None? {
        return false;
      }
      var mod := stat.bundle.value.mtime;
      ghost var stated := StepIn(w, s, env);
      if lastMod == Some(mod) {
        return false;
      }
      var engine := loader.LoadBundle(w, env, Some(mod), StepIn(w, stated, env));
      if engine.None? {
        return false;
      }
      current := engine.value;
      lastMod := Some(mod);
      return true;
    }

    /**
     The ticker loop: the watcher follows the step machine through any disturbed ticks, and after a
     tick with the disk at rest over a bundle that loads, it serves that bundle.
     */
    method Poll(w: World, envs: seq<Environment>, ghost s: State)
      requires StandsAt(s) && TimeInv(s) && SafeInv(w, s) && HonestTicks(w, s, envs)
      modifies this, loader
      ensures StandsAt(Ticks(w, s, envs)) && TimeInv(Ticks(w, s, envs)) && SafeInv(w, Ticks(w, s, envs))
      ensures forall m :: envs != [] && AtRest(envs[|envs| - 1], m) && Loads(w, m) ==>
                current == Engine(m.bundle.value.bytes) && lastMod == Some(m.bundle.value.mtime)
    {
      ghost var at := s;
      for i := 0 to |envs|
        invariant StandsAt(at) && TimeInv(at) && SafeInv(w, at)
        invariant HonestTicks(w, at, envs[i..]) && Ticks(w, at, envs[i..]) == Ticks(w, s, envs)
        invariant forall m :: i > 0 && AtRest(envs[i - 1], m) && Loads(w, m) ==>
                    current == Engine(m.bundle.value.bytes) && lastMod == Some(m.bundle.value.mtime)
      {
        assert envs[i..][0] == envs[i] && envs[i..][1..] == envs[i + 1..];
        TickKeepsInvariants(w, at, envs[i]);
        forall m | AtRest(envs[i], m) && Loads(w, m) ensures Serves(TickIn(w, at, envs[i]), m) {
          RestConverges(w, at, envs[i], m);
        }
        var swapped := CheckAndReload(w, envs[i], at);
        at := TickIn(w, at, envs[i]);
      }
    }
  }

  // ---------------------------------------------------------------- what a load and a tick result in

  /** The bytes pass verification, if there is a key, and compilation, at the moments of these steps. */
  predicate Builds(w: World, env: Environment, mod: Option<int>, modTime: int, wasm: Bytes) {
    var check := env(Verifying(mod, modTime, wasm));
    && (w.keyed ==> check.ok && check.sig.Some? && w.verifies(wasm, check.sig.value))
    && env(Compiling(mod, modTime, wasm)).ok && w.compiles(wasm)
  }

  predicate Runs(w: World, env: Environment, mod: Option<int>, source: Bytes) {
    env(Instantiating(mod, source)).ok && w.instantiates(source)
  }

  /**
   The engine a load delivers, for the first load as for later ones and with writes between the
   calls: stat and read must find a bundle; what was cached under the time of the stat is used as it
   is; other bytes are verified, compiled and remembered before they are instantiated.
   */
  lemma LoadOutcome(w: World, s: State, env: Environment, mod: Option<int>)
    requires s.phase == Loading(mod)
    ensures var t := Load(w, s, env);
            var info := env(Loading(mod));
            if !info.ok || info.bundle.None? then t.phase == Abandon(s, mod).phase && t.cache == s.cache
            else
              var modTime := info.bundle.value.mtime;
              var file := env(Reading(mod, modTime));
              if !file.ok || file.bundle.None? then t.phase == Abandon(s, mod).phase && t.cache == s.cache
              else
                var wasm := file.bundle.value.bytes;
                var hit := s.cache.Some? && s.cache.value.modTime == modTime;
                var source := if hit then s.cache.value.source else wasm;
                var built := hit || Builds(w, env, mod, modTime, wasm);
                && t.cache == (if !hit && built then Some(CacheEntry(wasm, modTime)) else s.cache)
                && t.phase == (if built && Runs(w, env, mod, source) then Swapping(mod, Engine(source))
                               else Abandon(s, mod).phase)
  {
    var t := LoadStep(w, s, env);
    if t.phase.Reading? {
      t := LoadStep(w, t, env);
    }
    if t.phase.Lookup? {
      BuildOutcome(w, t, env, mod, t.phase.modTime, t.phase.wasm);
    }
  }

  lemma BuildOutcome(w: World, s: State, env: Environment, mod: Option<int>, modTime: int, wasm: Bytes)
    requires s.phase == Lookup(mod, modTime, wasm)
    ensures var t := Load(w, s, env);
            var hit := s.cache.Some? && s.cache.value.modTime == modTime;
            var source := if hit then s.cache.value.source else wasm;
            var built := hit || Builds(w, env, mod, modTime, wasm);
            && t.cache == (if !hit && built then Some(CacheEntry(wasm, modTime)) else s.cache)
            && t.phase == (if built && Runs(w, env, mod, source) then Swapping(mod, Engine(source))
                           else Abandon(s, mod).phase)
  {
    var t := LoadStep(w, s, env);
    if t.phase.Verifying? {
      t := LoadStep(w, t, env);
    }
    if t.phase.Compiling? {
      t := LoadStep(w, t, env);
    }
    if t.phase.Instantiating? {
      t := LoadStep(w, t, env);
    }
  }

  lemma LoadStep(w: World, s: State, env: Environment) returns (t: State)
    requires InLoad(s.phase)
    ensures t == StepIn(w, s, env) && Load(w, s, env) == Load(w, t, env) && (!InLoad(t.phase) ==> Load(w, s, env) == t)
  {
    t := StepIn(w, s, env);
  }

  /** A tick swaps exactly if the stat shows a new time and the load delivers, and remembers that time. */
  lemma TickOutcome(w: World, s: State, env: Environment)
    requires s.phase.Idle?
    ensures var t := TickIn(w, s, env);
            var stat := env(Idle);
            if !stat.ok || stat.bundle.None? || s.lastMod == Some(stat.bundle.value.mtime)
            then t.current == s.current && t.lastMod == s.lastMod && t.cache == s.cache
            else
              var mod := Some(stat.bundle.value.mtime);
              var at := StepIn(w, StepIn(w, s, env), env);
              && at.phase == Loading(mod) && at.cache == s.cache
              && var loaded := Load(w, at, env);
                 && t.cache == loaded.cache
                 && (if loaded.phase.Swapping?
                     then t.current == Some(loaded.phase.engine) && t.lastMod == mod
                     else t.current == s.current && t.lastMod == s.lastMod)
  {
    var stat := env(Idle);
    if stat.ok && stat.bundle.Some? && s.lastMod != Some(stat.bundle.value.mtime) {
      var mod := Some(stat.bundle.value.mtime);
      var at := StepIn(w, StepIn(w, s, env), env);
      assert at.phase == Loading(mod);
      LoadLeavesEngine(w, at, env);
    }
  }

  lemma {:induction false} LoadLeavesEngine(w: World, s: State, env: Environment)
    requires InLoad(s.phase)
    ensures var t := Load(w, s, env);
            && t.current == s.current && t.lastMod == s.lastMod
            && (t.phase.Swapping? ==> t.phase.mod == s.phase.mod)
            && (t.phase.Swapping? || t.phase.Idle? || t.phase.Dead?)
    decreases Rank(s.phase)
  {
    var t := LoadStep(w, s, env);
    if InLoad(t.phase) {
      LoadLeavesEngine(w, t, env);
    }
  }

  // ---------------------------------------------------------------- every tick is a path

  /** Whatever changed on disk came from writes, and a write brings a time never seen before. */
  predicate Honest(s: State, m: Moment) {
    m.bundle.Some? ==> m.bundle == s.bundle || m.bundle.value.mtime !in s.used
  }

  predicate HonestLoad(w: World, s: State, env: Environment)
    decreases Rank(s.phase)
  {
    InLoad(s.phase) ==> Honest(s, env(s.phase)) && HonestLoad(w, StepIn(w, s, env), env)
  }

  predicate HonestTick(w: World, s: State, env: Environment)
    requires s.phase.Idle?
  {
    && Honest(s, env(Idle))
    && var stated := StepIn(w, s, env);
       stated.phase.Stated? ==>
         && Honest(stated, env(stated.phase))
         && HonestLoad(w, StepIn(w, stated, env), env)
         && var loaded := Load(w, StepIn(w, stated, env), env);
            loaded.phase.Swapping? ==> Honest(loaded, env(loaded.phase))
  }

  /** A sequence of ticks. */
  function Ticks(w: World, s: State, envs: seq<Environment>): (t: State)
    requires s.phase.Idle?
    ensures t.phase.Idle?
    decreases |envs|
  {
    if envs == [] then s else Ticks(w, TickIn(w, s, envs[0]), envs[1..])
  }

  predicate HonestTicks(w: World, s: State, envs: seq<Environment>)
    requires s.phase.Idle?
    decreases |envs|
  {
    envs != [] ==> HonestTick(w, s, envs[0]) && HonestTicks(w, TickIn(w, s, envs[0]), envs[1..])
  }

  predicate TimesUsed(s: State) {
    s.bundle.Some? ==> s.bundle.value.mtime in s.used
  }

  lemma Follow(w: World, tr: seq<State>, a: Action) returns (longer: seq<State>)
    requires Chain(SeededSteps(w), tr) && Enabled(Last(tr), a) && SeedMatches(Last(tr), a)
    ensures Chain(SeededSteps(w), longer) && longer[0] == tr[0] && Last(longer) == Apply(w, Last(tr), a)
  {
    var t := Apply(w, Last(tr), a);
    assert SeededNext(w, Last(tr), t);
    longer := tr + [t];
    Extend(SeededSteps(w), tr, t);
  }

  /** The writes that lead from the disk as it was to the disk a step finds. */
  lemma SeeIsPath(w: World, tr: seq<State>, m: Moment) returns (longer: seq<State>)
    requires Chain(SeededSteps(w), tr) && TimesUsed(Last(tr)) && Honest(Last(tr), m)
    ensures Chain(SeededSteps(w), longer) && longer[0] == tr[0] && Last(longer) == See(Last(tr), m)
  {
    var s := Last(tr);
    longer := tr;
    if m.bundle.None? {
      longer := Follow(w, longer, RemoveBundle);
    } else if m.bundle != s.bundle {
      longer := Follow(w, longer, WriteBundle(m.bundle.value.bytes, m.bundle.value.mtime));
    } else {
      assert s.used + {m.bundle.value.mtime} == s.used;
    }
    longer := Follow(w, longer, if m.sig.None? then RemoveSignature else WriteSignature(m.sig.value));
  }

  /** A step at a moment: the writes that lead there, then the step. */
  lemma StepIsPath(w: World, tr: seq<State>, env: Environment) returns (longer: seq<State>)
    requires Chain(SeededSteps(w), tr) && TimesUsed(Last(tr)) && Honest(Last(tr), env(Last(tr).phase))
    requires SeedMatches(See(Last(tr), env(Last(tr).phase)), Step(env(Last(tr).phase).ok))
    ensures Chain(SeededSteps(w), longer) && longer[0] == tr[0]
    ensures Last(longer) == StepIn(w, Last(tr), env) && TimesUsed(Last(longer))
  {
    var m := env(Last(tr).phase);
    longer := SeeIsPath(w, tr, m);
    longer := Follow(w, longer, Step(m.ok));
  }

  lemma {:induction false} LoadIsPath(w: World, tr: seq<State>, env: Environment) returns (longer: seq<State>)
    requires Chain(SeededSteps(w), tr) && TimesUsed(Last(tr)) && HonestLoad(w, Last(tr), env)
    ensures Chain(SeededSteps(w), longer) && longer[0] == tr[0]
    ensures Last(longer) == Load(w, Last(tr), env) && TimesUsed(Last(longer))
    decreases Rank(Last(tr).phase)
  {
    longer := tr;
    if InLoad(Last(tr).phase) {
      longer := StepIsPath(w, tr, env);
      longer := LoadIsPath(w, longer, env);
    }
  }

  /** A tick, with writes between any two of its steps, is a path of the step machine. */
  lemma TickIsPath(w: World, s: State, env: Environment) returns (tr: seq<State>)
    requires s.phase.Idle? && TimesUsed(s) && HonestTick(w, s, env)
    ensures Chain(SeededSteps(w), tr) && tr[0] == s && Last(tr) == TickIn(w, s, env)
  {
    tr := StepIsPath(w, [s], env);
    if Last(tr).phase.Stated? {
      tr := StepIsPath(w, tr, env);
      tr := LoadIsPath(w, tr, env);
      if Last(tr).phase.Swapping? {
        tr := StepIsPath(w, tr, env);
      }
    }
  }

  /** So a tick keeps the served engine verified and in step with the disk. */
  lemma TickKeepsInvariants(w: World, s: State, env: Environment)
    requires s.phase.Idle? && HonestTick(w, s, env) && TimeInv(s) && SafeInv(w, s)
    ensures TimeInv(TickIn(w, s, env)) && SafeInv(w, TickIn(w, s, env))
  {
    var tr := TickIsPath(w, s, env);
    ChainKeepsTimes(w, tr, |tr| - 1);
    Relax(SeededSteps(w), Steps(w), tr);
    ChainKeepsSafe(w, tr, |tr| - 1);
  }

  /** And so does starting the watcher, if the time it is seeded with is that of its engine's bundle. */
  lemma SeedKeepsInvariants(w: World, s: State, env: Environment)
    requires s.phase.Seeding? && TimeInv(s) && SafeInv(w, s) && Honest(s, env(Seeding))
    requires SeedMatches(See(s, env(Seeding)), Step(env(Seeding).ok))
    ensures TimeInv(StepIn(w, s, env)) && SafeInv(w, StepIn(w, s, env))
  {
    var tr := StepIsPath(w, [s], env);
    ChainKeepsTimes(w, tr, |tr| - 1);
    Relax(SeededSteps(w), Steps(w), tr);
    ChainKeepsSafe(w, tr, |tr| - 1);
  }

  // ---------------------------------------------------------------- convergence of the running watcher

  /** The disk does not change during the tick, and no call fails. */
  ghost predicate AtRest(env: Environment, m: Moment) {
    m.ok && forall p :: env(p) == m
  }

  /** The bundle passes the whole load path. */
  predicate Loads(w: World, m: Moment) {
    && m.bundle.Some? && w.compiles(m.bundle.value.bytes) && w.instantiates(m.bundle.value.bytes)
    && (w.keyed ==> m.sig.Some? && w.verifies(m.bundle.value.bytes, m.sig.value))
  }

  predicate Serves(s: State, m: Moment) {
    && m.bundle.Some?
    && s.current == Some(Engine(m.bundle.value.bytes)) && s.lastMod == Some(m.bundle.value.mtime)
  }

  /** With the disk at rest it is the tick that convergence is proved for. */
  lemma QuietTick(w: World, s: State, env: Environment, m: Moment)
    requires s.phase.Idle? && AtRest(env, m)
    ensures TickIn(w, s, env) == Tick(w, See(s, m))
  {
    var at := See(s, m);
    var t := Advance(w, at, true);
    assert StepIn(w, s, env) == t;
    if t.phase.Stated? {
      SeeAgain(t, m);
      var u := Advance(w, t, true);
      assert Finish(w, t) == Finish(w, u);
      QuietLoad(w, u, env, m);
    }
  }

  predicate Seen(s: State, m: Moment) {
    s.bundle == m.bundle && s.sig == m.sig && TimesUsed(s)
  }

  lemma SeeAgain(s: State, m: Moment)
    requires Seen(s, m)
    ensures See(s, m) == s
  {
    if m.bundle.Some? {
      assert s.used + {m.bundle.value.mtime} == s.used;
    }
  }

  lemma {:induction false} QuietLoad(w: World, s: State, env: Environment, m: Moment)
    requires Seen(s, m) && AtRest(env, m)
    requires s.phase.Idle? || ((InLoad(s.phase) || s.phase.Swapping?) && s.phase.mod.Some?)
    ensures var t := Load(w, s, env);
            Finish(w, s) == if t.phase.Swapping? then StepIn(w, t, env) else t
    decreases Rank(s.phase)
  {
    SeeAgain(s, m);
    if InLoad(s.phase) {
      QuietLoad(w, Advance(w, s, true), env, m);
    }
  }

  lemma SeeKeepsTimes(w: World, s: State, m: Moment)
    requires s.phase.Idle? && TimeInv(s) && Honest(s, m)
    ensures TimeInv(See(s, m))
  {
    var tr := SeeIsPath(w, [s], m);
    ChainKeepsTimes(w, tr, |tr| - 1);
  }

  /** After any earlier disturbances, one tick at rest over a loadable bundle serves that bundle. */
  lemma RestConverges(w: World, s: State, env: Environment, m: Moment)
    requires s.phase.Idle? && TimeInv(s) && HonestTick(w, s, env) && AtRest(env, m) && Loads(w, m)
    ensures Serves(TickIn(w, s, env), m)
  {
    QuietTick(w, s, env, m);
    SeeKeepsTimes(w, s, m);
    TickConverges(w, See(s, m));
  }
}
