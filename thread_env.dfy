/**
  The three hook wrappers of the plugin acting on the process environment.
  Before setup, before call and before teardown each write the descriptor of
  the running test under the current thread's key; when the protocol is over
  the key is deleted again, except the main thread's, which keeps its last
  descriptor.

  The environment is a `map<string, string>`, the thread's name is passed in,
  and the hookwrapper `yield`s become the order in which the hooks are called:
  protocol start, call start, teardown start, protocol end.
 */
module ThreadEnv {
  import opened Wrappers
  import opened ThreadName
  import opened Descriptor

  type Env = map<string, string>

  /** `os.environ.get(key)` */
  function Lookup(env: Env, key: string): (value: Option<string>) {
    if key in env then Some(env[key]) else None
  }

  /** What a hook leaves behind: the new environment, or the KeyError `del` raised. */
  datatype Outcome = Ok(env: Env) | KeyError(key: string)

  /**
    `os.environ[var_name] = f"{nodeid} ({phase})"`: the thread's key now holds
    the descriptor, and no other key has changed.
   */
  function SetPhase(env: Env, name: string, nodeid: string, phase: Phase): (env': Env)
    ensures Lookup(env', VarName(name)) == Some(Describe(nodeid, phase))
    ensures forall k :: k != VarName(name) ==> Lookup(env', k) == Lookup(env, k)
    ensures env'.Keys == env.Keys + {VarName(name)}
  {
    env[VarName(name) := Describe(nodeid, phase)]
  }

  /**
    The tail of the protocol hook, given the key it resolved before its
    `yield`: the main key is left alone; any other key is deleted, and `del`
    raises KeyError when it is already gone.
   */
  function ClearThreadVar(env: Env, varName: string): (r: Outcome)
    ensures r.KeyError? <==> varName != MainKey && varName !in env
    ensures r.KeyError? ==> r.key == varName
    ensures r.Ok? && varName == MainKey ==> r.env == env
    ensures r.Ok? && varName != MainKey ==>
      && Lookup(r.env, varName) == None
      && (forall k :: k != varName ==> Lookup(r.env, k) == Lookup(env, k))
      && r.env.Keys == env.Keys - {varName}
  {
    if varName != "PYTEST_CURRENT_TEST" then
      if varName in env then Ok(env - {varName}) else KeyError(varName)
    else
      Ok(env)
  }

  /**
    One hook invocation. The three phase hooks resolve the name of the thread
    they run in; the end of the protocol hook reuses the key its start
    resolved (`var_name` lives across the `yield`), so a thread renamed in
    between does not change what is deleted.
   */
  datatype Hook =
    | ProtocolEnter(name: string, nodeid: string)
    | CallEnter(name: string, nodeid: string)
    | TeardownEnter(name: string, nodeid: string)
    | ProtocolExit(varName: string)

  /** The environment variable a hook touches. */
  function HookKey(h: Hook): (key: string) {
    match h
    case ProtocolExit(varName) => varName
    case _ => VarName(h.name)
  }

  /** The phase a phase hook announces. */
  function HookPhase(h: Hook): (phase: Phase)
    requires !h.ProtocolExit?
  {
    match h
    case ProtocolEnter(_, _) => Setup
    case CallEnter(_, _) => Call
    case TeardownEnter(_, _) => Teardown
  }

  /**
    Runs one hook. A phase hook always succeeds and leaves its descriptor at
    its key; the protocol end fails only on a missing non-main key; either
    way no other key changes.
   */
  function Step(env: Env, h: Hook): (r: Outcome)
    ensures !h.ProtocolExit? ==> r.Ok? && Lookup(r.env, HookKey(h)) == Some(Describe(h.nodeid, HookPhase(h)))
    ensures r.KeyError? <==> h.ProtocolExit? && h.varName != MainKey && h.varName !in env
    ensures r.KeyError? ==> r.key == HookKey(h)
    ensures r.Ok? && h.ProtocolExit? && h.varName != MainKey ==> Lookup(r.env, h.varName) == None
    ensures h.ProtocolExit? && h.varName == MainKey ==> r == Ok(env)
    ensures r.Ok? ==> forall k :: k != HookKey(h) ==> Lookup(r.env, k) == Lookup(env, k)
  {
    match h
    case ProtocolEnter(name, nodeid) => Ok(SetPhase(env, name, nodeid, Setup))
    case CallEnter(name, nodeid) => Ok(SetPhase(env, name, nodeid, Call))
    case TeardownEnter(name, nodeid) => Ok(SetPhase(env, name, nodeid, Teardown))
    case ProtocolExit(varName) => ClearThreadVar(env, varName)
  }

  /** The keys the hooks of a run touch. */
  ghost function TouchedKeys(hooks: seq<Hook>): (keys: set<string>) {
    set i | 0 <= i < |hooks| :: HookKey(hooks[i])
  }

  /**
    Runs hooks in order; a KeyError ends the run. A successful run adds no
    key that none of its hooks touches, and a KeyError comes from a protocol
    end on the missing key.
   */
  function Replay(env: Env, hooks: seq<Hook>): (r: Outcome)
    ensures r.Ok? ==> r.env.Keys <= env.Keys + TouchedKeys(hooks)
    ensures r.KeyError? ==> exists i :: 0 <= i < |hooks| && hooks[i] == ProtocolExit(r.key)
    decreases |hooks|
  {
    if hooks == [] then Ok(env)
    else
      match Step(env, hooks[0])
      case KeyError(key) =>
        assert hooks[0] == ProtocolExit(key);
        KeyError(key)
      case Ok(env') =>
        var r := Replay(env', hooks[1..]);
        assert forall i :: 0 <= i < |hooks| - 1 ==> hooks[1..][i] == hooks[i + 1];
        assert env'.Keys <= env.Keys + {HookKey(hooks[0])} by {
          forall k | k in env' ensures k in env.Keys + {HookKey(hooks[0])} {
            if k != HookKey(hooks[0]) { assert Lookup(env', k) == Lookup(env, k); }
          }
        }
        assert TouchedKeys(hooks[1..]) + {HookKey(hooks[0])} <= TouchedKeys(hooks) by {
          forall k | k in TouchedKeys(hooks[1..]) ensures k in TouchedKeys(hooks) {
            var i :| 0 <= i < |hooks| - 1 && HookKey(hooks[1..][i]) == k;
            assert HookKey(hooks[i + 1]) == k;
          }
          assert HookKey(hooks[0]) in TouchedKeys(hooks);
        }
        r
  }

  /**
    A run that raises KeyError ran cleanly up to some protocol end whose
    non-main key was missing from the environment at that point.
   */
  lemma {:induction false} ReplayKeyErrorAt(env: Env, hooks: seq<Hook>)
    requires Replay(env, hooks).KeyError?
    ensures exists i ::
      && 0 <= i < |hooks|
      && Replay(env, hooks[..i]).Ok?
      && hooks[i] == ProtocolExit(Replay(env, hooks).key)
      && Replay(env, hooks).key != MainKey
      && Replay(env, hooks).key !in Replay(env, hooks[..i]).env
    decreases |hooks|
  {
    var key := Replay(env, hooks).key;
    assert hooks[..0] == [];
    match Step(env, hooks[0])
    case KeyError(_) =>
      assert Replay(env, hooks[..0]) == Ok(env);
    case Ok(env') =>
      ReplayKeyErrorAt(env', hooks[1..]);
      var j :|
        && 0 <= j < |hooks| - 1
        && Replay(env', hooks[1..][..j]).Ok?
        && hooks[1..][j] == ProtocolExit(key)
        && key != MainKey
        && key !in Replay(env', hooks[1..][..j]).env;
      assert hooks[..j + 1][0] == hooks[0] && hooks[..j + 1][1..] == hooks[1..][..j];
      assert Replay(env, hooks[..j + 1]) == Replay(env', hooks[1..][..j]);
      assert hooks[j + 1] == ProtocolExit(key);
  }

  /**
    The hooks pytest runs for one test, in the order their code runs; the
    protocol end deletes the key resolved when the protocol started.
   */
  function ProtocolHooks(name: string, nodeid: string): (hooks: seq<Hook>) {
    [ProtocolEnter(name, nodeid), CallEnter(name, nodeid), TeardownEnter(name, nodeid), ProtocolExit(VarName(name))]
  }

  /** The hooks of `hooks` that touch `key`, in their order. */
  function OnKey(hooks: seq<Hook>, key: string): (sub: seq<Hook>)
    ensures forall i :: 0 <= i < |sub| ==> HookKey(sub[i]) == key
    decreases |hooks|
  {
    if hooks == [] then []
    else if HookKey(hooks[0]) == key then [hooks[0]] + OnKey(hooks[1..], key)
    else OnKey(hooks[1..], key)
  }

  /** Replaying `a + b` is replaying `a`, then `b` on what `a` left. */
  lemma {:induction false} ReplayAppend(env: Env, a: seq<Hook>, b: seq<Hook>)
    ensures Replay(env, a + b) == match Replay(env, a)
      case KeyError(key) => KeyError(key)
      case Ok(env') => Replay(env', b)
    decreases |a|
  {
    if a != [] {
      assert (a + b)[0] == a[0] && (a + b)[1..] == a[1..] + b;
      match Step(env, a[0])
      case KeyError(_) =>
      case Ok(env') => ReplayAppend(env', a[1..], b);
    } else {
      assert a + b == b;
    }
  }

  /**
    A full protocol in a numbered thread ends with its key deleted and every
    other key as it was; whatever the key held before is not restored.
   */
  lemma NumberedThreadRunClearsKey(env: Env, name: string, nodeid: string)
    requires IsThreadName(name)
    ensures Replay(env, ProtocolHooks(name, nodeid)) == Ok(env - {VarName(name)})
  {
    var key := VarName(name);
    var hooks := ProtocolHooks(name, nodeid);
    var e1 := SetPhase(env, name, nodeid, Setup);
    var e2 := SetPhase(e1, name, nodeid, Call);
    var e3 := SetPhase(e2, name, nodeid, Teardown);
    assert Replay(env, hooks) == Replay(e1, hooks[1..]);
    assert Replay(e1, hooks[1..]) == Replay(e2, hooks[2..]);
    assert Replay(e2, hooks[2..]) == Replay(e3, hooks[3..]);
    ThreadKeyFilterSeparates(name);
    assert ClearThreadVar(e3, key) == Ok(e3 - {key});
    assert e3 - {key} == env - {key};
  }

  /**
    A full protocol in any other thread leaves the main key holding the
    teardown descriptor, and every other key as it was.
   */
  lemma MainThreadRunKeepsTeardown(env: Env, name: string, nodeid: string)
    requires !IsThreadName(name)
    ensures Replay(env, ProtocolHooks(name, nodeid)) == Ok(env[MainKey := Describe(nodeid, Teardown)])
  {
    var hooks := ProtocolHooks(name, nodeid);
    var e1 := SetPhase(env, name, nodeid, Setup);
    var e2 := SetPhase(e1, name, nodeid, Call);
    var e3 := SetPhase(e2, name, nodeid, Teardown);
    assert Replay(env, hooks) == Replay(e1, hooks[1..]);
    assert Replay(e1, hooks[1..]) == Replay(e2, hooks[2..]);
    assert Replay(e2, hooks[2..]) == Replay(e3, hooks[3..]);
    assert e3 == env[MainKey := Describe(nodeid, Teardown)];
  }

  /** One hook, run on two environments that agree at `key`, keeps them agreeing there. */
  lemma StepAgreesAtKey(env1: Env, env2: Env, h: Hook, key: string)
    requires Lookup(env1, key) == Lookup(env2, key)
    requires HookKey(h) == key
    ensures Step(env1, h).KeyError? <==> Step(env2, h).KeyError?
    ensures Step(env1, h).Ok? ==> Lookup(Step(env1, h).env, key) == Lookup(Step(env2, h).env, key)
  {
    assert key in env1 <==> key in env2;
  }

  /**
    Threads do not disturb each other's slot: what a run leaves at `key` is
    what the hooks on `key` alone leave there, started from any environment
    that agrees at `key`.
   */
  lemma {:induction false} ReplayIsolatesKey(env1: Env, env2: Env, hooks: seq<Hook>, key: string)
    requires Lookup(env1, key) == Lookup(env2, key)
    requires Replay(env1, hooks).Ok?
    ensures Replay(env2, OnKey(hooks, key)).Ok?
    ensures Lookup(Replay(env2, OnKey(hooks, key)).env, key) == Lookup(Replay(env1, hooks).env, key)
    decreases |hooks|
  {
    if hooks != [] {
      var h := hooks[0];
      var next1 := Step(env1, h).env;
      if HookKey(h) == key {
        StepAgreesAtKey(env1, env2, h, key);
        var next2 := Step(env2, h).env;
        ReplayIsolatesKey(next1, next2, hooks[1..], key);
        assert OnKey(hooks, key) == [h] + OnKey(hooks[1..], key);
        assert ([h] + OnKey(hooks[1..], key))[1..] == OnKey(hooks[1..], key);
      } else {
        assert Lookup(next1, key) == Lookup(env1, key);
        ReplayIsolatesKey(next1, env2, hooks[1..], key);
      }
    }
  }

  /** A key no hook touches keeps its value (or its absence). */
  lemma ReplayFrame(env: Env, hooks: seq<Hook>, key: string)
    requires forall i :: 0 <= i < |hooks| ==> HookKey(hooks[i]) != key
    requires Replay(env, hooks).Ok?
    ensures Lookup(Replay(env, hooks).env, key) == Lookup(env, key)
  {
    OnKeyUntouched(hooks, key);
    ReplayIsolatesKey(env, env, hooks, key);
  }

  /** No hook touches `key`, so none is kept. */
  lemma {:induction false} OnKeyUntouched(hooks: seq<Hook>, key: string)
    requires forall i :: 0 <= i < |hooks| ==> HookKey(hooks[i]) != key
    ensures OnKey(hooks, key) == []
    decreases |hooks|
  {
    if hooks != [] {
      assert HookKey(hooks[0]) != key;
      OnKeyUntouched(hooks[1..], key);
    }
  }

  /** A present key stays present while no protocol exit deletes it. */
  lemma {:induction false} KeyStaysUntilExit(env: Env, hooks: seq<Hook>, key: string)
    requires key in env
    requires forall i :: 0 <= i < |hooks| ==> hooks[i] != ProtocolExit(key)
    requires Replay(env, hooks).Ok?
    ensures key in Replay(env, hooks).env
    decreases |hooks|
  {
    if hooks != [] {
      var next := Step(env, hooks[0]).env;
      assert Lookup(next, key).Some?;
      KeyStaysUntilExit(next, hooks[1..], key);
    }
  }

  /**
    The `del` at the end of the protocol cannot raise KeyError when the
    protocol's own start wrote the key and nothing in between deleted it.
   */
  lemma ExitAfterEnterFindsKey(env: Env, name: string, nodeid: string, between: seq<Hook>)
    requires forall i :: 0 <= i < |between| ==> between[i] != ProtocolExit(VarName(name))
    requires Replay(env, [ProtocolEnter(name, nodeid)] + between).Ok?
    ensures Replay(env, [ProtocolEnter(name, nodeid)] + between + [ProtocolExit(VarName(name))]).Ok?
  {
    var start := SetPhase(env, name, nodeid, Setup);
    ReplayAppend(env, [ProtocolEnter(name, nodeid)], between);
    assert Replay(env, [ProtocolEnter(name, nodeid)]) == Ok(start);
    KeyStaysUntilExit(start, between, VarName(name));
    ReplayAppend(env, [ProtocolEnter(name, nodeid)] + between, [ProtocolExit(VarName(name))]);
  }

  /**
    When setup fails pytest skips the call but still runs teardown; the
    numbered thread's key is deleted all the same.
   */
  lemma SetupFailureStillClears(env: Env, name: string, nodeid: string)
    requires IsThreadName(name)
    ensures Replay(env, [ProtocolEnter(name, nodeid), TeardownEnter(name, nodeid), ProtocolExit(VarName(name))])
      == Ok(env - {VarName(name)})
  {
    var key := VarName(name);
    var hooks := [ProtocolEnter(name, nodeid), TeardownEnter(name, nodeid), ProtocolExit(key)];
    var e1 := SetPhase(env, name, nodeid, Setup);
    var e2 := SetPhase(e1, name, nodeid, Teardown);
    assert Replay(env, hooks) == Replay(e1, hooks[1..]);
    assert Replay(e1, hooks[1..]) == Replay(e2, hooks[2..]);
    ThreadKeyFilterSeparates(name);
    assert ClearThreadVar(e2, key) == Ok(e2 - {key});
    assert e2 - {key} == env - {key};
  }

  /**
    A whole protocol on a numbered key run inside the teardown phase of
    another protocol on the same key (a fixture finalizer running pytest
    again, or thread A's teardown, then thread B's whole test, then A's end,
    when A and B share an ordinal): the inner end deletes the key and
    nothing writes it again, so the outer `del` raises KeyError.
   */
  lemma NestedProtocolRaisesKeyError(env: Env, name: string, outer: string, inner: string)
    requires IsThreadName(name)
    ensures Replay(env, [ProtocolEnter(name, outer), CallEnter(name, outer), TeardownEnter(name, outer)]
                        + ProtocolHooks(name, inner) + [ProtocolExit(VarName(name))])
      == KeyError(VarName(name))
  {
    var key := VarName(name);
    var pre := [ProtocolEnter(name, outer), CallEnter(name, outer), TeardownEnter(name, outer)];
    var e1 := SetPhase(env, name, outer, Setup);
    var e2 := SetPhase(e1, name, outer, Call);
    var e3 := SetPhase(e2, name, outer, Teardown);
    assert Replay(env, pre) == Replay(e1, pre[1..]);
    assert Replay(e1, pre[1..]) == Replay(e2, pre[2..]);
    assert Replay(e2, pre[2..]) == Replay(e3, []);
    ReplayAppend(env, pre + ProtocolHooks(name, inner), [ProtocolExit(key)]);
    ReplayAppend(env, pre, ProtocolHooks(name, inner));
    NumberedThreadRunClearsKey(e3, name, inner);
    ThreadKeyFilterSeparates(name);
    assert Step(e3 - {key}, ProtocolExit(key)) == KeyError(key);
  }

  /**
    A protocol on `name` with a whole protocol for `inner` run between its
    call and teardown hooks.
   */
  function CallNestedHooks(name: string, outer: string, inner: string): (hooks: seq<Hook>) {
    [ProtocolEnter(name, outer), CallEnter(name, outer)] + ProtocolHooks(name, inner)
      + [TeardownEnter(name, outer), ProtocolExit(VarName(name))]
  }

  /**
    The same nesting inside the call phase, as when a test body on
    `pytest-thread-N` runs pytest again, raises nothing: the outer teardown
    hook writes the key again before the outer `del`.
   */
  lemma CallNestedProtocolClears(env: Env, name: string, outer: string, inner: string)
    requires IsThreadName(name)
    ensures Replay(env, CallNestedHooks(name, outer, inner)) == Ok(env - {VarName(name)})
  {
    var key := VarName(name);
    var pre := [ProtocolEnter(name, outer), CallEnter(name, outer)];
    var post := [TeardownEnter(name, outer), ProtocolExit(key)];
    assert CallNestedHooks(name, outer, inner) == pre + ProtocolHooks(name, inner) + post;
    var e1 := SetPhase(env, name, outer, Setup);
    var e2 := SetPhase(e1, name, outer, Call);
    assert Replay(env, pre + ProtocolHooks(name, inner)) == Ok(e2 - {key}) by {
      assert Replay(env, pre) == Replay(e1, pre[1..]);
      assert Replay(e1, pre[1..]) == Replay(e2, []);
      ReplayAppend(env, pre, ProtocolHooks(name, inner));
      NumberedThreadRunClearsKey(e2, name, inner);
    }
    var cleared := env - {key};
    assert e2 - {key} == cleared;
    assert Replay(cleared, post) == Ok(cleared) by {
      TeardownThenEndClears(cleared, name, outer);
      assert cleared - {key} == cleared;
    }
    ReplayAppend(env, pre + ProtocolHooks(name, inner), post);
  }

  /** Teardown and end in a numbered thread leave the environment minus its key. */
  lemma TeardownThenEndClears(env: Env, name: string, nodeid: string)
    requires IsThreadName(name)
    ensures Replay(env, [TeardownEnter(name, nodeid), ProtocolExit(VarName(name))]) == Ok(env - {VarName(name)})
  {
    var key := VarName(name);
    var hooks := [TeardownEnter(name, nodeid), ProtocolExit(key)];
    var e := SetPhase(env, name, nodeid, Teardown);
    assert Replay(env, hooks) == Replay(e, hooks[1..]);
    ThreadKeyFilterSeparates(name);
    assert ClearThreadVar(e, key) == Ok(e - {key});
    assert e - {key} == env - {key};
  }

  /**
    A main thread renamed to a numbered name during setup: the call and
    teardown hooks resolve the new name and write that key, while the end of
    the protocol uses the main key it resolved at the start and deletes
    nothing, so the numbered key is left behind.
   */
  lemma RenamedThreadLeavesStaleKey(env: Env, before: string, after: string, nodeid: string)
    requires !IsThreadName(before) && IsThreadName(after)
    ensures Replay(env, [ProtocolEnter(before, nodeid), CallEnter(after, nodeid),
                         TeardownEnter(after, nodeid), ProtocolExit(VarName(before))])
      == Ok(env[MainKey := Describe(nodeid, Setup)][VarName(after) := Describe(nodeid, Teardown)])
  {
    var hooks := [ProtocolEnter(before, nodeid), CallEnter(after, nodeid),
                  TeardownEnter(after, nodeid), ProtocolExit(VarName(before))];
    var e1 := SetPhase(env, before, nodeid, Setup);
    var e2 := SetPhase(e1, after, nodeid, Call);
    var e3 := SetPhase(e2, after, nodeid, Teardown);
    assert Replay(env, hooks) == Replay(e1, hooks[1..]);
    assert Replay(e1, hooks[1..]) == Replay(e2, hooks[2..]);
    assert Replay(e2, hooks[2..]) == Replay(e3, hooks[3..]);
    var k := VarName(after);
    assert e1 == env[MainKey := Describe(nodeid, Setup)];
    assert e3 == e1[k := Describe(nodeid, Call)][k := Describe(nodeid, Teardown)];
    assert e3 == e1[k := Describe(nodeid, Teardown)];
    assert VarName(before) == MainKey;
    assert Step(e3, hooks[3]) == Ok(e3);
    assert Replay(e3, hooks[3..]) == Replay(e3, []);
  }

  /** The process environment, changed in place by the hooks. */
  class Registry {
    var env: Env

    constructor (initial: Env)
      ensures env == initial
    {
      env := initial;
    }

    /**
      `pytest_runtest_protocol` up to its `yield`. Returns `var_name`, the
      key resolved now, which the end of the protocol deletes.
     */
    method ProtocolStart(name: string, nodeid: string) returns (varName: string)
      modifies this
      ensures varName == VarName(name)
      ensures env == SetPhase(old(env), name, nodeid, Setup)
      ensures Lookup(env, varName) == Some(Describe(nodeid, Setup))
    {
      varName := VarName(name);
      env := env[varName := Describe(nodeid, Setup)];
    }

    /** `pytest_runtest_call` up to its `yield`: resolves the thread's name again. */
    method CallStart(name: string, nodeid: string)
      modifies this
      ensures env == SetPhase(old(env), name, nodeid, Call)
      ensures Lookup(env, VarName(name)) == Some(Describe(nodeid, Call))
    {
      env := env[VarName(name) := Describe(nodeid, Call)];
    }

    /** `pytest_runtest_teardown` up to its `yield`: resolves the thread's name again. */
    method TeardownStart(name: string, nodeid: string)
      modifies this
      ensures env == SetPhase(old(env), name, nodeid, Teardown)
      ensures Lookup(env, VarName(name)) == Some(Describe(nodeid, Teardown))
    {
      env := env[VarName(name) := Describe(nodeid, Teardown)];
    }

    /**
      `pytest_runtest_protocol` after its `yield`, with the `var_name` its
      start resolved. Returns the key of the KeyError `del` raises, in which
      case the environment is unchanged.
     */
    method ProtocolEnd(varName: string) returns (keyError: Option<string>)
      modifies this
      ensures keyError.None? ==> ClearThreadVar(old(env), varName) == Ok(env)
      ensures keyError.Some? ==> ClearThreadVar(old(env), varName) == KeyError(keyError.value) && env == old(env)
    {
      keyError := None;
      if varName != "PYTEST_CURRENT_TEST" {
        if varName !in env {
          keyError := Some(varName);
          return;
        }
        env := env - {varName};
      }
    }

    /**
      pytest running one test in the thread `name`: the four hooks in
      protocol order. No KeyError is possible.
     */
    method RunTest(name: string, nodeid: string) returns (keyError: Option<string>)
      modifies this
      ensures Replay(old(env), ProtocolHooks(name, nodeid)) == Ok(env)
      ensures keyError.None?
      ensures IsThreadName(name) ==> env == old(env) - {VarName(name)}
      ensures !IsThreadName(name) ==> env == old(env)[MainKey := Describe(nodeid, Teardown)]
    {
      ghost var before := env;
      var varName := ProtocolStart(name, nodeid);
      CallStart(name, nodeid);
      TeardownStart(name, nodeid);
      keyError := ProtocolEnd(varName);
      ThreadKeyFilterSeparates(name);
      if IsThreadName(name) {
        NumberedThreadRunClearsKey(before, name, nodeid);
      } else {
        MainThreadRunKeepsTeardown(before, name, nodeid);
      }
    }
  }
}
