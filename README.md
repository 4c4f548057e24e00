# pytest-thread-context, per-thread current-test slots

This project models the `pytest-thread-context` plugin (`plugin_thread_env.py`) and proves properties of the model. The plugin gives each worker thread its own "current test" environment variable. Pytest has only one such variable, `PYTEST_CURRENT_TEST`.

- A thread named `pytest-thread-<digits>` writes `PYTEST_CURRENT_TEST_THREAD_<digits>`. Every other thread writes the standard `PYTEST_CURRENT_TEST`.
- The value is always `"<nodeid> (<phase>)"`, and the phase is `setup`, `call` or `teardown`.
- Three pytest hook wrappers write it: before setup (the protocol hook), before the test call, and before teardown.
- When the protocol hook resumes after its `yield`, it deletes a numbered thread's variable. It leaves the main variable holding its last value.

The model has four modules:

- `Wrappers` (`wrappers.dfy`) defines `Option`.
- `ThreadName` (`thread_name.dfy`) is the name resolver `_thread_var_name`. `MatchThreadName` scans a name against the anchored pattern `^pytest-thread-(\d+)$`. `VarName` turns a name into its key. The lemmas prove:
  - digits are copied verbatim, so `01` and `1` give different keys;
  - every other name falls back to the main key;
  - the resolver is injective;
  - the prefix `PYTEST_CURRENT_TEST_THREAD_` identifies exactly the keys of numbered threads.
- `Descriptor` (`descriptor.dfy`) defines the `"<nodeid> (<phase>)"` string, a parser for it, and both round trips.
- `ThreadEnv` (`thread_env.dfy`) models the hooks over the environment, represented as `map<string, string>`:
  - `SetPhase` and `ClearThreadVar` specify single hook steps.
  - `Replay` runs a sequence of hook calls.
  - Class `Registry` holds the environment in a field. Its methods `ProtocolStart`, `CallStart`, `TeardownStart` and `ProtocolEnd` change the field in place.
  - The thread's name is an explicit argument.
  - Each hook wrapper's `yield` becomes the order in which the methods are called. `RunTest` calls them in pytest's protocol order.

Three behaviours of the code are worth stating directly:

- The digit string is copied, not parsed as an integer, so `pytest-thread-01` and `pytest-thread-1` get different keys.
- `del os.environ[var_name]` on an absent key raises `KeyError`, so the end of the protocol is not idempotent. The model returns `KeyError(key)` and leaves the environment unchanged. `ExitAfterEnterFindsKey` shows this cannot happen for one protocol on its own key. `NestedProtocolRaisesKeyError` shows it does happen when a whole protocol on the same numbered key runs inside the teardown phase of another. `CallNestedProtocolClears` shows that the same nesting inside the call phase raises nothing, because the outer teardown hook writes the key again.
- The main key is never cleared. It keeps the last descriptor written to it.

The end of the protocol hook does not resolve the thread's name again. It deletes the `var_name` that its start resolved before the `yield`. So `ProtocolStart` returns that key, and `ProtocolEnd` and `ProtocolExit` take it. The call and teardown hooks resolve the name again. A thread renamed during setup therefore leaves the new name's key behind (`RenamedThreadLeavesStaleKey`).

## Model

| member | source | states |
|---|---|---|
| ThreadName.StripPrefix | plugin_thread_env.py:18 | Consuming the literal `pytest-thread-` succeeds exactly when the name starts with it. The result is the rest of the name. |
| ThreadName.DigitRun | plugin_thread_env.py:18 | The `\d` run anchored by `$` accepts a string exactly when every character is an ASCII digit. |
| ThreadName.MatchThreadName | plugin_thread_env.py:18-28 | The match succeeds exactly when the whole name is the prefix followed by one or more digits. The captured group is that digit string, so prefix + group rebuilds the name. |
| ThreadName.VarName | plugin_thread_env.py:21-31 | A numbered name resolves to `PYTEST_CURRENT_TEST_THREAD_` + its digits. Every other name resolves to `PYTEST_CURRENT_TEST`. Resolution is total. |
| ThreadName.NumberedNameResolves | plugin_thread_env.py:29-30 | For every non-empty digit string d, `pytest-thread-` + d is a thread name, and its key is `PYTEST_CURRENT_TEST_THREAD_` + d, with d copied verbatim. |
| ThreadName.LeadingZeroKeepsOwnKey | plugin_thread_env.py:30 | A leading zero is kept in the key. `pytest-thread-0d` and `pytest-thread-d` resolve to different keys. |
| ThreadName.UnmatchedNamesShareMainKey | plugin_thread_env.py:18-31 | These names resolve to `PYTEST_CURRENT_TEST`: an empty suffix, a non-digit suffix (`pytest-thread-abc`), trailing text, leading text, another prefix (`pytest-main-thread`), `MainThread` and the empty name. |
| ThreadName.VarNameInjective | plugin_thread_env.py:28-31 | Two names get the same key exactly when they are equal or neither is a numbered thread name. |
| ThreadName.ThreadKeyFilterSeparates | conftest.py:15-17 | A resolved key passes the `startswith("PYTEST_CURRENT_TEST_THREAD_")` filter exactly when the name is numbered. A numbered key is never `PYTEST_CURRENT_TEST`. |
| Descriptor.Describe | plugin_thread_env.py:44-71 | The rendering `f"{nodeid} ({phase})"` at lines 44, 59 and 71. Its own contract gives the length: the node id plus the phase suffix. `ParseDescribe` and `DescribeInjective` pin it down: the rendering gives back its node id and phase, and different pairs render differently. |
| Descriptor.SuffixesExclusive | plugin_thread_env.py:7 | No descriptor ends with the suffixes of two different phases. |
| Descriptor.ParseDescribe | plugin_thread_env.py:7 | Reading back `"<nodeid> (<phase>)"` gives the node id and the phase. |
| Descriptor.DescribeParse | plugin_thread_env.py:7 | Every string that parses is exactly the descriptor of its node id and phase. |
| Descriptor.DescribeInjective | plugin_thread_env.py:44 | Two descriptors are equal exactly when both node ids and phases are. |
| ThreadEnv.SetPhase | plugin_thread_env.py:44 | After the upsert, the thread's key holds `"<nodeid> (<phase>)"`. Every other key keeps its value or its absence. The key set gains only that key. |
| ThreadEnv.ClearThreadVar | plugin_thread_env.py:47-49 | Takes the key resolved when the protocol started. For the main key, the environment is unchanged. For any other key that is present, only that key is removed. For any other key that is absent, the result is KeyError for that key. |
| ThreadEnv.Step | plugin_thread_env.py:34-72 | One hook. A phase hook always succeeds and leaves its descriptor at its key. The protocol end fails exactly when its key is not the main key and is missing. No other key changes. |
| ThreadEnv.Replay | plugin_thread_env.py:34-72 | Hooks run in order, and a KeyError ends the run. A successful run adds only keys its hooks touch. A KeyError names a key that some protocol end in the run targets. `ReplayKeyErrorAt` adds that the key was missing when that end ran. `ReplayAppend` and `NumberedThreadRunClearsKey` pin the run down further. |
| ThreadEnv.ReplayKeyErrorAt | plugin_thread_env.py:47-49 | A run that raises KeyError ran without error up to some protocol end on that key. The key is not the main key, and it was absent from the environment the earlier hooks left. |
| ThreadEnv.ReplayAppend | plugin_thread_env.py:34-72 | Running hooks a then b is running a, then b on what a left. A KeyError in a ends the run. |
| ThreadEnv.NumberedThreadRunClearsKey | plugin_thread_env.py:39-49 | In a numbered thread, setup, call, teardown and end leave the environment as before minus that thread's key. A value the key held before is not restored. |
| ThreadEnv.MainThreadRunKeepsTeardown | plugin_thread_env.py:44-71 | In any other thread, the full protocol leaves the environment as before, with `PYTEST_CURRENT_TEST` set to `"<nodeid> (teardown)"`. |
| ThreadEnv.ReplayIsolatesKey | plugin_thread_env.py:5-9 | The value an interleaved run of hooks leaves at a key depends only on the hooks that resolve to that key. Start from any environment that agrees at that key. If the whole run succeeds, the filtered run succeeds too. |
| ThreadEnv.ReplayFrame | plugin_thread_env.py:44-49 | A key that no hook in the run resolves to keeps its value or its absence. |
| ThreadEnv.KeyStaysUntilExit | plugin_thread_env.py:44-49 | A present key stays present through any hooks that contain no protocol end on that key. |
| ThreadEnv.ExitAfterEnterFindsKey | plugin_thread_env.py:44-49 | The protocol's final `del` cannot raise KeyError when the same protocol's start wrote the key and no protocol end on that key came in between. |
| ThreadEnv.SetupFailureStillClears | plugin_thread_env.py:39-71 | When setup fails, pytest skips the call hook but still runs teardown. The numbered thread's key is still deleted at the end. |
| ThreadEnv.NestedProtocolRaisesKeyError | plugin_thread_env.py:39-72 | A whole protocol on a numbered key runs after the setup, call and teardown hooks of another protocol on the same key, before that protocol's end. The inner end deletes the key and nothing writes it again, so the outer `del` raises KeyError for it. This is a fixture finalizer that runs pytest again. It is also thread A's teardown, then thread B's whole test, then A's end, when A and B share an ordinal. |
| ThreadEnv.CallNestedProtocolClears | plugin_thread_env.py:39-72 | The same nesting between the outer call and teardown hooks, as when a test body runs pytest again, raises nothing. The outer teardown hook writes the key again, and the run leaves the environment minus that key. |
| ThreadEnv.TeardownThenEndClears | plugin_thread_env.py:47-72 | In a numbered thread, the teardown hook followed by the protocol end leaves the environment minus the thread's key, whatever it held before. |
| ThreadEnv.RenamedThreadLeavesStaleKey | plugin_thread_env.py:39-71 | The main thread is renamed to a numbered name during setup, for example by a fixture. The call and teardown hooks write the new name's key. The protocol end uses the main key from its start and deletes nothing. The numbered key is left holding the teardown descriptor. |
| ThreadEnv.Registry.ProtocolStart | plugin_thread_env.py:39-45 | Returns `var_name`, the resolved key. The environment becomes SetPhase(old, name, nodeid, setup). |
| ThreadEnv.Registry.CallStart | plugin_thread_env.py:57-60 | The environment becomes SetPhase(old, name, nodeid, call), which overwrites the same key. |
| ThreadEnv.Registry.TeardownStart | plugin_thread_env.py:69-72 | The environment becomes SetPhase(old, name, nodeid, teardown). |
| ThreadEnv.Registry.ProtocolEnd | plugin_thread_env.py:47-49 | Given the key its start returned, the environment becomes ClearThreadVar's result. On KeyError it is unchanged and the key is returned. |
| ThreadEnv.Registry.RunTest | plugin_thread_env.py:34-72 | The four hooks in protocol order never raise KeyError. Afterwards a numbered key is gone, and the main key holds the teardown descriptor. |

## Left out

- The process environment and thread identity: `os.environ` is the `env` map field. The phase hooks take the thread's current name, which stands for `threading.current_thread().name` when each hook runs. The end of the protocol takes the key its start resolved.
- SetPhase, Step and Registry.RunTest: assigning to `os.environ` raises `ValueError` when the value holds a NUL character, and `UnicodeEncodeError` on POSIX when it holds a character the filesystem encoding cannot encode. The node id is copied into the value unfiltered, so either error can end a phase hook. The `env` map accepts every string, so "a phase hook always succeeds" and "`RunTest` never raises" hold of the model only.
- pytest's hookwrapper machinery: the generator `yield`s, the `outcome` objects and pytest's own hook ordering are not modelled. The order of the method calls stands in for them.
- pytest's own writes to `PYTEST_CURRENT_TEST`: pytest's runner sets and removes this variable itself. That code is not part of this model, so the main key's final value is what the plugin alone leaves.
- `pytest_report_header`: it returns a constant banner string, and there is nothing to prove about it.
- Concurrency: the model is sequential. Interleavings of several threads' hooks, including two threads that share an ordinal, are hook sequences given to `Replay` (see `NestedProtocolRaisesKeyError`, `CallNestedProtocolClears` and `ReplayIsolatesKey`). Races inside a single `os.environ` assignment or deletion are not modelled.
- Python `re` corner cases: `\d` also matches non-ASCII decimal digits, and `$` also matches before a trailing newline, so `"pytest-thread-3\n"` matches. The model accepts only ASCII `0`-`9` and a full-string match.
- `test_thread_context.py` and `conftest.py`: they spawn threads, sleep and print. Only conftest's key-prefix filter is used, to state `ThreadKeyFilterSeparates`.
