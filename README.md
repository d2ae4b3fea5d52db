# Script resource bridge: a Dafny model

This project models the scripting core of a small Rust game engine built on
`specs`/`shred` and the `rlua` Lua interpreter. There are three source files.

- **`src/scriptable.rs`.** A *script system* declares which world resources it
  reads and writes. This is its `Dependencies` accessor. `fetch` borrows
  exactly those resources from the world: shared borrows for the reads, then
  exclusive borrows for the writes, then the meta table (`ReflectionTable`).
  `run` takes the single Lua interpreter from a channel. It narrows every
  borrowed resource through the meta table and calls the Lua callback with the
  narrowed views. A callback error is only logged. Whether the callback
  returns or raises, `run` sends the interpreter back, and dropping the fetched
  data releases the borrows. A
  `ResourceTable` maps resource names to resource ids.
- **`src/input.rs`.** The keyboard state map, plus two decoders of the fourteen
  supported keys: one from a name, one from an integer code.
- **`src/colors.rs`.** Five named colour constants, a case-sensitive lookup by
  name, and the `Color` wrapper around four channels.

How the model represents the source:

- The world is a `World` object. It maps each resource id to the borrow state
  of its cell, which is either a count of shared borrows or one exclusive
  borrow. It also holds the set of ids registered in the meta table.
- The interpreter channel is a `Channel` object. Its `holder` field says
  whether the scheduler side or the running system holds the interpreter.
- The Lua callback is a `CallbackOutcome` parameter: the callback either
  returned or raised an error message.
- A panic in the source (`unwrap`, `expect`, or a borrow conflict) becomes a
  `requires` clause.

`FetchSucceeds` states exactly when `fetch` does not panic. The lemma
`AcquireCorrect` proves that this condition is equivalent to the step-by-step
borrows (`Acquire`) succeeding. The lemma `FetchThenRelease` proves that
dropping the fetched data gives the world back unchanged.

The model follows the code where the system's intended design reads differently:

- The accessor holds ordered lists, not sets, and nothing in the code keeps a
  resource out of both lists. Here, a resource in both lists is a panic in
  `fetch`, stated in `FetchSucceeds`. It is not an invariant of `Dependencies`.
- A resource missing from the meta table is a panic in `run` (`expect`), not a
  recoverable `None`.
- The borrows are taken by `fetch` before `run` receives the interpreter, not
  after.

## Model

| member | source | states |
|---|---|---|
| `Colors.ColorFromName` | src/colors.rs:7-19 | returns `Some` exactly for "black", "white", "red", "green" and "blue"; each gives its same-named constant; every other string, differently-cased names included, gives `None` |
| `Colors.New` | src/colors.rs:25-27 | the colour built from four channels converts back to exactly those channels, in the order red, green, blue, alpha |
| `Colors.Into` | src/colors.rs:31-33 | the array a colour converts to is the one it wraps: wrapping it again gives back the same colour |
| `Colors.IntoNew` | src/colors.rs:25-33 | `Color::new(r, g, b, a).into()` is `[r, g, b, a]`: the channels keep their order |
| `Colors.NewInto` | src/colors.rs:22-33 | every colour equals `Color::new` applied to its own channels |
| `Colors.NamedColorsOpaque` | src/colors.rs:1-5 | every colour found by name has alpha 1.0 |
| `Colors.LookupIsCaseSensitive` | src/colors.rs:11-17 | "Red", "BLACK" and "Blue" are not recognised |
| `Colors.ColorFromNameInjective` | src/colors.rs:1-17 | the five constants are pairwise distinct: two names that find the same colour are the same name |
| `Input.OrdInjective` | src/input.rs:54-73 | distinct keys have distinct `as u32` codes |
| `Input.VirtualKeyCodeFromString` | src/input.rs:29-52 | the result is `Some(k)` exactly when the string is `k`'s name; any other string gives `None` |
| `Input.VirtualKeyCodeFromInt` | src/input.rs:54-73 | the result is `Some(k)` exactly when the integer is `k`'s code; an integer that is no key's code gives `None` |
| `Input.DecodersInvertEncodings` | src/input.rs:29-73 | each of the fourteen keys is decoded back from its name and from its code |
| `Input.StringDecodeThenIntDecode` | src/input.rs:35-70 | a key decoded from a name is decoded again from its integer code |
| `Input.InputStateMap.constructor` | src/input.rs:10-14 | a fresh map has no state for any key |
| `Input.InputStateMap.GetVirtualKeyCode` | src/input.rs:16-18 | a key has a state exactly when one is recorded for it, and the state is the one recorded |
| `Input.InputStateMap.SetVirtualKeyCode` | src/input.rs:20-22 | afterwards the key reads back the new state, whatever it was before; every other key keeps its state |
| `Input.InputStateMap.Clear` | src/input.rs:24-26 | afterwards no key has a state |
| `Scriptable.ResourceTable.constructor` | src/scriptable.rs:17-21 | a new table holds no names |
| `Scriptable.ResourceTable.Register` | src/scriptable.rs:23-25 | afterwards the name looks up the new id, replacing any earlier one; other registered names keep their ids; the name set grows by exactly that name |
| `Scriptable.ResourceTable.Get` | src/scriptable.rs:27-29 | the lookup needs the name to be registered, since the source unwraps; the result is the id registered under that name |
| `Scriptable.Dependencies.Writes` | src/scriptable.rs:70-72 | the declared writes, returned verbatim: in order, and without the meta-table id that `Reads` adds |
| `Scriptable.Dependencies.Reads` | src/scriptable.rs:63-68 | the declared reads in order, followed by exactly one meta-table id; the length is one more than the declared count |
| `Scriptable.TryNew` | src/scriptable.rs:58-61 | there is no default accessor (`None`) |
| `Scriptable.ShareEachEffect` | src/scriptable.rs:87-96 | shared borrows taken one by one succeed exactly when every id is present and not exclusively held; afterwards each cell has one more shared borrow per occurrence of its id |
| `Scriptable.LockEachEffect` | src/scriptable.rs:98-107 | exclusive borrows taken one by one succeed exactly when every id is present and unborrowed and no id repeats; afterwards exactly those cells are held exclusively |
| `Scriptable.AcquireCorrect` | src/scriptable.rs:86-114 | the step-by-step borrows of `fetch` (reads, then writes, then the meta table) succeed exactly when `FetchSucceeds` holds, and then give the world that `Acquired` describes |
| `Scriptable.FetchThenRelease` | src/scriptable.rs:75-114 | after a successful fetch the world records every borrow of the fetched data, and dropping that data restores the world's borrow state exactly |
| `Scriptable.World.BorrowShared` | src/scriptable.rs:90-95 | one shared borrow of a present cell that is not exclusively held: its count goes up by one and the borrow is logged |
| `Scriptable.World.BorrowExclusive` | src/scriptable.rs:101-106 | one exclusive borrow of a present, unborrowed cell: the cell becomes exclusively held and the borrow is logged |
| `Scriptable.World.Drop` | src/scriptable.rs:75-79 | dropping fetched data gives back each of its shared and exclusive borrows |
| `Scriptable.BorrowEachShared` | src/scriptable.rs:87-96 | the read pass: shared borrows of the declared reads in declaration order; the result lists the same ids in the same order |
| `Scriptable.BorrowEachExclusive` | src/scriptable.rs:98-107 | the write pass: exclusive borrows of the declared writes in declaration order; the result lists the same ids in the same order |
| `Scriptable.Fetch` | src/scriptable.rs:86-114 | it requires that no id is missing and no borrow conflicts. The borrow log is every read shared, then every write exclusive, then the meta table shared. The fetched lists equal the declared lists, so the meta table is not added to the reads. The world afterwards is `Acquired` |
| `Scriptable.Narrow` | src/scriptable.rs:159-186 | narrowing succeeds exactly when every resource's id is in the meta table; the views then have the same length and positions as the borrowed resources |
| `Scriptable.ScriptSystem.constructor` | src/scriptable.rs:129-145 | stores the given reads and writes in the given order; `Reads()` is the reads plus the meta-table id; `Writes()` is the writes unchanged |
| `Scriptable.ScriptSystem.Setup` | src/scriptable.rs:213-215 | requires that no resource is borrowed, as `&mut World` guarantees; inserts a fresh, unborrowed, empty meta table, replacing any earlier one, and leaves every other cell as it was |
| `Scriptable.ScriptSystem.Run` | src/scriptable.rs:151-207 | requires that the interpreter is available. Hands the interpreter to the system and back, exactly once each. The narrowed reads and writes line up with the borrowed ones. A callback error is logged as "script system error <message>" and not propagated. On success or error, the scheduler holds the interpreter again afterwards and the data's borrows are released |
| `Scriptable.Channel.Receive` | src/scriptable.rs:152-155 | the system can take the interpreter only from the scheduler side |
| `Scriptable.Channel.Send` | src/scriptable.rs:204-206 | the system gives the interpreter back to the scheduler side |
| `Scriptable.Dispatch` | src/scriptable.rs:148-211 | one dispatcher step: fetch with the system's accessor, then run. Whether the callback returns or raises, the interpreter goes to the system and back once, the world's borrow state and meta table are as before, the borrows taken are logged in fetch order, and only a raised error is logged, with its message |
| `Scriptable.DispatchTwice` | src/scriptable.rs:148-211 | two consecutive ticks of one system both run: the second tick is possible even when the first callback raised, and afterwards the interpreter has made two round trips and the borrow state and meta table are as before |

## Left out

- Scriptable.ScriptSystem.Run: the path where a borrowed resource is not registered in the meta table is excluded by a `requires`. In the source that `expect` panics after `recv` (src/scriptable.rs:152-155, 166-168, 179-181), so the interpreter is never sent back and later systems could not receive it; the model does not represent this path.
- Scriptable.ScriptSystem.Setup: each `setup` replaces the meta table with an empty one, and no modelled operation registers ids in it (`MetaTable::register` belongs to `shred`). After `Setup`, a system with declared reads or writes can be dispatched only on a world whose registrations were supplied some other way, for example through `World`'s constructor.

- Lua calls are not modelled. This covers looking up the callback in the Lua registry, creating the scoped userdata and calling the function (src/scriptable.rs:188-198). The outcome of all three is the `CallbackOutcome` parameter of `Run`.
- The `read` and `write` methods on `ScriptResourceData` are not modelled: they are Lua-facing no-ops.
- `set_virtual_key_codes` is not modelled because it only builds a Lua table. Its key names are the ones `Input.Name` gives.
- All `UserData` implementations are not modelled.
- Threads and channel blocking are not modelled. `recv` and `send` are a change of the `holder` field. A disconnected channel (the `expect` on `recv`/`send`) is not modelled.
- `MetaTable` downcasting and `CastFrom` are not modelled. An id in the world's `reflection` set stands for "registered in the meta table". `MetaTable::register` belongs to `shred`, so the set is part of the world's state and no operation of this model adds to it.
- Resource values are not modelled, only the borrow state of each resource's cell. The borrow-conflict panics of `shred`'s cells appear as the `FetchSucceeds` requirement.
- `World::new` and `World::insert` belong to `shred`. The `World` constructor stands for them: it takes the initial unborrowed cells and the ids registered in the meta table.
- `ResourceId::new::<T>()` is a parameter of `Register`. Type identity is represented by the type's name.
- `ScriptSystemData::setup` does nothing in the source (src/scriptable.rs:84), so it is not modelled.
- `System::accessor` only hands out the stored `Dependencies` (src/scriptable.rs:209-211); `Dispatch` reads that field directly.
- The `specs` dispatcher that calls `fetch`, `run` and the final drop is not part of this model. `Dispatch` shows the order in which it makes those calls.
- `eprintln!` does not write to stderr in the model. `Run` returns the logged line instead.
- `f32` channels are `real`. The source only uses the exact values 0.0 and 1.0, so no rounding is involved.
- Only the fourteen keys the decoders know are modelled, not glutin's other `VirtualKeyCode` variants. Their codes follow glutin's declaration order (Key1..Key0 are 0..9; Left, Up, Right and Down are 70..73). glutin is not part of this model, and the proofs use only that the fourteen codes are distinct.
- The key map stores a one-field tuple `(ElementState,)`. The model stores the `ElementState` directly.
- `src/main.rs` and `src/ecs.rs` are not modelled (Lua setup and a thin wrapper over `specs` storage).
- Rendering, camera, vector and physics maths, device and viewport conversions, delta time and mod loading are not modelled: they are GPU, floating-point, glutin or filesystem code.
