# insta settings: a Dafny model

This project models the settings layer of the insta snapshot-testing library
(`src/settings.rs`). It covers:

- `ActualSettings`, the record of tunables: map sorting, the snapshot path and the redaction rule list.
- `Settings`, a cheap handle on a shared record. It is cloned by taking another reference on
  the `Arc`, and mutated by copy-on-write through `Arc::make_mut`.
- The redaction rule list and its conversion from `(selector, value)` pairs.
- `CURRENT_SETTINGS`, the per-thread slot. `with` reads it, `bind` swaps a handle in for the
  duration of a body, and `bind_to_thread` swaps one in for good.

`redaction.dfy` holds the types the settings layer borrows from the content and redaction
modules, as opaque tokens. `settings.dfy` holds the model of the file itself.

How the Rust constructs appear in Dafny:

- An `Arc<ActualSettings>` allocation is a `Shared` object: the record plus a `Count` object. The
  `Count` holds the strong count and, as ghost state, the handles known to hold one of the
  counted references. Its invariant `|holders| <= strong` is what lets `MakeMut` conclude that a
  count of one means the asking handle is the only owner, so writing in place is invisible to
  every other handle.
- `DEFAULT_SETTINGS` is a handle passed explicitly as `defaults`; `Settings.Wrap` builds one.
- The thread-local slot is a `ThreadSlot` object passed explicitly.
- `Selector::parse` is a caller-supplied partial function `parse`. Where the source's `unwrap`
  panics, the model returns `parsed == false` (for the `add_*` methods) or `None` (for the
  conversion from pairs).
- The body `f` given to `bind` is a `Body` script. It lists what the body does to the thread's
  settings: read them (`Observe`), `bind_to_thread` a handle, run a nested `bind`, or panic.
  `ThreadSlot.Run` interprets it, and every read goes through `ThreadSlot.With`. `Trace` and
  `Final` specify which record every read sees and where the slot is left. `Values` gives the
  settings that `with` hands its callback at each of those reads.

One might expect `bind` to restore the previous settings even when the body panics. The code
does not: nothing guards the restoring assignment, so a panic in `f` leaves the slot where `f`
left it. `Settings.Bind` restores the slot only when `f` returns. `PanicSkipsRestore` shows that
after a panic the slot stays where the scoped body left it and nothing after the `bind` runs.

## Model

| member | source | states |
|---|---|---|
| Settings.FromStatics | src/settings.rs:27-42 | the conversion succeeds exactly when every selector parses; it then keeps length and order, and rule i is the parsed selector i with a static replacement by value i |
| Settings.Settings.Wrap | src/settings.rs:12-19 | `Arc::new` gives a fresh record with a strong count of one, whose only owner is the new handle |
| Settings.DefaultSettingsRead | src/settings.rs:13-18 | the default record reads map sorting off, the path "snapshots" and no rules |
| Settings.Settings.CloneOf | src/settings.rs:76-79 | a clone shares the source's record, raises its strong count by one, and leaves every valid handle valid |
| Settings.Settings.New | src/settings.rs:81-93 | a new handle shares the defaults' record, so map sorting is off, the path is "snapshots" and there are no rules |
| Settings.Settings.MakeMut | src/settings.rs:95-99 | after `make_mut` the handle is the sole owner and its record is unchanged; with a count of one it is the same record, otherwise a fresh copy; every other handle stays valid |
| Settings.Settings.SetSortMaps | src/settings.rs:101-114 | `sort_maps` reads back the new value; the path and rules are unchanged; no other valid handle's settings change (copy-on-write isolation) |
| Settings.Settings.SortMaps | src/settings.rs:111-114 | returns the flag of the record the handle currently shares, so a clone reads the same flag until one side writes |
| Settings.Settings.SnapshotPath | src/settings.rs:232-235 | returns the path of the record the handle currently shares |
| Settings.Settings.IterRedactions | src/settings.rs:217-221 | yields the rules of the shared record in stored order, each pair unchanged; the `add_*` rows state that this order is registration order |
| Settings.Settings.SetSnapshotPath | src/settings.rs:223-235 | `snapshot_path` reads back the new path; the other fields are unchanged; no other handle's settings change |
| Settings.Settings.PushRule | src/settings.rs:124-129 | `parsed` is true exactly when the selector parses; the rule is then appended at the end, and otherwise the list is unchanged; no other handle changes |
| Settings.Settings.AddRedaction | src/settings.rs:116-129 | appends a static replacement rule after all earlier rules when the selector parses; nothing else changes, here or in other handles |
| Settings.Settings.AddDynamicRedaction | src/settings.rs:131-166 | appends a callback replacement rule at the end when the selector parses; nothing else changes |
| Settings.Settings.AddAssertion | src/settings.rs:168-201 | appends an assertion rule at the end when the selector parses; nothing else changes |
| Settings.Settings.SetRedactions | src/settings.rs:203-209 | the rule list becomes exactly the given one; the other fields and other handles are unchanged |
| Settings.Settings.ClearRedactions | src/settings.rs:211-221 | `iter_redactions` yields nothing afterwards, whatever was registered before; the other fields and other handles are unchanged |
| Settings.Settings.Assign | src/settings.rs:242-243 | the handle now shares the source's record; all handles the caller holds stay valid |
| Settings.Settings.MoveFrom | src/settings.rs:247-248 | the slot handle takes over the saved reference and ends on the saved record; the saved handle no longer holds a reference; the caller's handles stay valid |
| Settings.Settings.Release | src/settings.rs:240-248 | dropping the saved reference lowers the strong count by one, the handle no longer holds it, and the caller's handles stay valid |
| Settings.Settings.Bind | src/settings.rs:237-250 | every `with` inside `f` returns the settings of the record `Trace` gives, starting from this handle's; when `f` returns, the slot is back on the record it had before; when `f` panics, the slot stays where `f` left it; no record is written |
| Settings.Settings.BindToThread | src/settings.rs:252-257 | the slot now shares this handle's record |
| Settings.ThreadSlot.constructor | src/settings.rs:20 | a thread's slot starts as `Settings::new()`, on the default record |
| Settings.ThreadSlot.With | src/settings.rs:259-262 | the callback receives the settings of the record the slot currently refers to; every read in `Run` goes through it, so the values `Bind` and `Run` report are what `with` returns |
| Settings.ThreadSlot.Install | src/settings.rs:240-245 | the saved clone holds the slot's previous record, and the slot now shares the bound handle's record |
| Settings.ThreadSlot.RunScoped | src/settings.rs:246-248 | after `f` returns, the slot is back on the saved record; after a panic it is where `f` left it; either way the saved handle no longer holds a reference (handed back to the slot, or dropped) |
| Settings.ThreadSlot.Run | src/settings.rs:246 | running the body leaves the slot on `Final`, and its reads through `with` return the settings of the records `Trace` predicts; it panics exactly when `Panics` says so |
| Settings.ThreadSlot.RunNested | src/settings.rs:237-250 | a nested `bind` followed by more of the body gives the same `Final`, `Trace` and panic outcome; nothing after a panic runs |
| Settings.ScopesRestore | src/settings.rs:237-250 | a body that makes no permanent binding and does not panic leaves the slot where it found it, however deeply binds nest |
| Settings.PanicSkipsRestore | src/settings.rs:238-250 | when the scoped body panics, the slot stays where the scoped body left it instead of being restored, and no later read runs |
| Settings.ImmediatePanicLeavesBound | src/settings.rs:238-250 | a scoped body that panics at once leaves the slot on the bound record |
| Settings.FinalIsBound | src/settings.rs:237-257 | after a body, the slot refers to its starting record or to the record of a handle the body bound |
| Settings.ObservationsAreBound | src/settings.rs:237-262 | every read inside a body sees the starting record or one the body bound |
| Settings.ReadOnlySeesCurrent | src/settings.rs:259-262 | a body that only reads sees its starting record every time |
| Settings.ReadOnlyReadsCurrent | src/settings.rs:237-262 | every `with` in a body that only reads returns the settings of its starting record, so inside `bind` that is the bound handle's settings |
| Settings.ThenPanics | src/settings.rs:246 | a sequence of two bodies panics exactly when one of them panics |
| Settings.ThenStops | src/settings.rs:246 | when the first body panics, the second never runs: slot and reads are those of the first |
| Settings.ThenFinal | src/settings.rs:246 | when the first body returns, the sequence leaves the slot where the second leaves it, started from where the first left it |
| Settings.ThenComposes | src/settings.rs:246 | when the first body returns, the reads of the sequence are those of the first followed by those of the second, run from where the first left the slot |
| Settings.PermanentBindPersists | src/settings.rs:252-257 | after `bind_to_thread(h)`, a read made after any scoped binds that return still sees h's record |

## Left out

- Panics are not modelled as unwinding. A failed `unwrap` becomes `parsed == false` or `None`. A panic in a `bind` body only ends the body and its enclosing binds. Nothing outside the slot observes it.
- `Drop` of handles is not modelled, except for the saved reference that a panicking `bind` drops. Strong counts can therefore stay above the program's count.
- MakeMut: may copy a record that the program would reuse in place, because the counts can be higher than the program's (see the line above). The settings every handle reads are the same either way.
- Weak references: `Arc::make_mut` also looks at weak counts. This file creates none, so the model has no weak count.
- Threads: thread identity, the lazy initialisation of `DEFAULT_SETTINGS` and of the thread-local slot, and `Send`/`Sync` are not modelled. The defaults and one thread's slot are explicit objects.
- `RefCell` borrow failures are not modelled. The slot's handle is private to the module, so the model requires it is never among the handles a body uses. A `bind` issued from inside a `with` callback would panic with a borrow error in the program; the model has no such case because `With` takes a function.
- ThreadSlot.With: the callback receives the settings record rather than the `&Settings` handle. That is the same information, because a handle exposes nothing beyond its record's fields.
- The body `f` of `bind` is limited to reads, permanent binds, nested binds and panics. A body that mutates settings handles or calls other code is not modelled.
- Content, Selector and the callbacks are opaque tokens. Selector parsing, `make_static` and the `Into<Content>` conversions belong to other modules, which are not part of this model.
- How rules are applied to a value tree, in order, is done by the redaction module, which is not part of this model. The model proves only that registration order is kept.
- `snapshot_path` is a string. The conversion of `AsRef<Path>` to `PathBuf` is not modelled.
- The `redactions` cargo feature is taken as enabled.
- Settings.Assign: drops the old reference before taking the new one, whereas the program clones before it drops. The final counts are the same.
