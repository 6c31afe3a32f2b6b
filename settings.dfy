/**
 * The configuration layer of the snapshot-testing library: the settings
 * record, the copy-on-write handle around it, the redaction rule list, and
 * the per-thread slot that binds a handle while a test body runs.
 */
module Settings {
  import opened Redaction

  /** One entry of the rule list: where it applies and what it does. */
  type Rule = (Selector, Redaction)

  /** `Redactions`: the rules in registration order; the default is empty. */
  datatype Redactions = Redactions(rules: seq<Rule>)

  /**
   * `From<Vec<(&str, Content)>> for Redactions`: every pair becomes a static
   * rule on its parsed selector, in the same order. `None` stands for the
   * panic of the `unwrap` when some selector does not parse.
   */
  function FromStatics(parse: Parser, pairs: seq<(string, Content)>): (r: Option<Redactions>)
    ensures r.Some? <==> forall i :: 0 <= i < |pairs| ==> parse(pairs[i].0).Some?
    ensures r.Some? ==> |r.value.rules| == |pairs|
    ensures r.Some? ==>
      forall i :: 0 <= i < |pairs| ==> r.value.rules[i] == (parse(pairs[i].0).value, Static(pairs[i].1))
  {
    if pairs == [] then Some(Redactions([]))
    else
      match (parse(pairs[0].0), FromStatics(parse, pairs[1..]))
      case (Some(selector), Some(rest)) => Some(Redactions([(selector, Static(pairs[0].1))] + rest.rules))
      case _ => None
  }

  /** `ActualSettings`: every tunable a handle exposes. */
  datatype ActualSettings = ActualSettings(sortMaps: bool, snapshotPath: string, redactions: Redactions)

  /** The record behind `DEFAULT_SETTINGS`. */
  const DefaultRecord := ActualSettings(false, "snapshots", Redactions([]))

  /** A handle on the default record reads map sorting off, the path "snapshots" and no rules. */
  lemma DefaultSettingsRead(s: Settings)
    requires s.Get() == DefaultRecord
    ensures !s.SortMaps() && s.SnapshotPath() == "snapshots" && s.IterRedactions() == []
  {
  }

  /**
   * The strong count of one `Arc` allocation. `holders` are the handles
   * known to own one of the counted references; each of them is counted,
   * so a count of one means the asking handle is the only owner.
   */
  class Count {
    var strong: nat
    ghost var holders: set<Settings>

    ghost predicate Valid()
      reads this
    {
      |holders| <= strong
    }

    constructor ()
      ensures strong == 0 && holders == {}
    {
      strong := 0;
      holders := {};
    }
  }

  /**
   * One `Arc<ActualSettings>` allocation: the record and its count. The
   * count is an object of its own so that a frame can say "only counts
   * change" of the operations that clone and drop references.
   */
  class Shared {
    var value: ActualSettings
    const count: Count

    /** A new allocation, not yet owned by any handle. */
    constructor (value: ActualSettings)
      ensures this.value == value && fresh(count) && count.strong == 0 && count.holders == {}
    {
      this.value := value;
      count := new Count();
    }
  }

  lemma SoleHolder(holders: set<Settings>, h: Settings)
    requires h in holders && |holders| <= 1
    ensures holders == {h}
  {
    var others := holders - {h};
    assert |others| == |holders| - 1;
    assert others == {};
  }

  /** `Settings`: a handle on a shared record, mutated by copy-on-write. */
  class Settings {
    var inner: Shared

    ghost predicate Valid()
      reads this, inner, inner.count
    {
      this in inner.count.holders && inner.count.Valid()
    }

    /** The tunables this handle exposes. */
    function Get(): ActualSettings
      reads this, inner
    {
      inner.value
    }

    /** `sort_maps`: the flag of the record this handle currently shares. */
    function SortMaps(): (r: bool)
      reads this, inner
      ensures r == Get().sortMaps
    {
      inner.value.sortMaps
    }

    /** `snapshot_path`: the path of the record this handle currently shares. */
    function SnapshotPath(): (r: string)
      reads this, inner
      ensures r == Get().snapshotPath
    {
      inner.value.snapshotPath
    }

    /** `iter_redactions`: the stored rules, in registration order. */
    function IterRedactions(): (r: seq<Rule>)
      reads this, inner
      ensures r == Get().redactions.rules
    {
      inner.value.redactions.rules
    }

    /** `Arc::new`: a handle that is the only owner of a new record (how `DEFAULT_SETTINGS` is made). */
    constructor Wrap(value: ActualSettings)
      ensures Valid() && fresh(inner) && fresh(inner.count) && Get() == value
      ensures inner.count.holders == {this} && inner.count.strong == 1
    {
      var cell := new Shared(value);
      inner := cell;
      new;
      cell.count.holders := {this};
      cell.count.strong := 1;
    }

    /** `Clone`: a second handle on the same record; only the count changes. */
    constructor CloneOf(source: Settings)
      requires source.Valid()
      modifies source.inner.count
      ensures Valid() && inner == source.inner && source.Valid()
      ensures inner.count.strong == old(source.inner.count.strong) + 1
      ensures forall b: Settings :: old(allocated(b)) && old(b.Valid()) ==> b.Valid()
    {
      inner := source.inner;
      new;
      inner.count.strong := inner.count.strong + 1;
      inner.count.holders := inner.count.holders + {this};
    }

    /** `Settings::new` / `Default::default`: a handle on the process-wide defaults. */
    static method New(defaults: Settings) returns (s: Settings)
      requires defaults.Valid() && defaults.Get() == DefaultRecord
      modifies defaults.inner.count
      ensures fresh(s) && s.Valid() && s.inner == defaults.inner && defaults.Valid()
      ensures !s.SortMaps() && s.SnapshotPath() == "snapshots" && s.IterRedactions() == []
      ensures forall b: Settings :: old(allocated(b)) && old(b.Valid()) ==> b.Valid()
    {
      s := new Settings.CloneOf(defaults);
    }

    /**
     * `_private_inner_mut` (`Arc::make_mut`): gives back a record that this
     * handle owns alone, copying it first when it is shared. No other handle
     * sees a difference.
     */
    method MakeMut() returns (record: Shared)
      requires Valid()
      modifies this, inner.count
      ensures Valid() && record == inner && inner.count.holders == {this}
      ensures Get() == old(Get())
      ensures old(inner.count.strong) == 1 ==> inner == old(inner)
      ensures old(inner.count.strong) != 1 ==> fresh(inner) && fresh(inner.count)
      ensures forall b: Settings :: old(allocated(b)) && b != this && old(b.Valid()) ==> b.Valid()
    {
      if inner.count.strong == 1 {
        SoleHolder(inner.count.holders, this);
      } else {
        var copy := new Shared(inner.value);
        inner.count.strong := inner.count.strong - 1;
        inner.count.holders := inner.count.holders - {this};
        copy.count.strong := 1;
        copy.count.holders := {this};
        inner := copy;
      }
      record := inner;
    }

    /** `set_sort_maps`. */
    method SetSortMaps(value: bool)
      requires Valid()
      modifies this, inner, inner.count
      ensures Valid() && SortMaps() == value
      ensures SnapshotPath() == old(SnapshotPath()) && IterRedactions() == old(IterRedactions())
      ensures forall b: Settings :: old(allocated(b)) && b != this && old(b.Valid()) ==>
        b.Valid() && b.Get() == old(b.Get())
    {
      var record := MakeMut();
      record.value := record.value.(sortMaps := value);
    }

    /** `set_snapshot_path` (the path as plain text). */
    method SetSnapshotPath(path: string)
      requires Valid()
      modifies this, inner, inner.count
      ensures Valid() && SnapshotPath() == path
      ensures SortMaps() == old(SortMaps()) && IterRedactions() == old(IterRedactions())
      ensures forall b: Settings :: old(allocated(b)) && b != this && old(b.Valid()) ==>
        b.Valid() && b.Get() == old(b.Get())
    {
      var record := MakeMut();
      record.value := record.value.(snapshotPath := path);
    }

    /**
     * The shared body of the three `add_*` methods: uniquify the record, then
     * parse the selector and push one rule. `parsed` is false where the
     * `unwrap` panics, and then no rule has been pushed.
     */
    method PushRule(parse: Parser, selector: string, action: Redaction) returns (parsed: bool)
      requires Valid()
      modifies this, inner, inner.count
      ensures Valid() && parsed == parse(selector).Some?
      ensures IterRedactions() ==
        if parsed then old(IterRedactions()) + [(parse(selector).value, action)] else old(IterRedactions())
      ensures SortMaps() == old(SortMaps()) && SnapshotPath() == old(SnapshotPath())
      ensures forall b: Settings :: old(allocated(b)) && b != this && old(b.Valid()) ==>
        b.Valid() && b.Get() == old(b.Get())
    {
      var record := MakeMut();
      match parse(selector)
      case None =>
        parsed := false;
      case Some(sel) =>
        var rules := record.value.redactions.rules;
        record.value := record.value.(redactions := Redactions(rules + [(sel, action)]));
        parsed := true;
    }

    /** `add_redaction`: appends a static replacement rule. */
    method AddRedaction(parse: Parser, selector: string, replacement: Content) returns (parsed: bool)
      requires Valid()
      modifies this, inner, inner.count
      ensures Valid() && parsed == parse(selector).Some?
      ensures IterRedactions() ==
        if parsed then old(IterRedactions()) + [(parse(selector).value, Static(replacement))]
        else old(IterRedactions())
      ensures SortMaps() == old(SortMaps()) && SnapshotPath() == old(SnapshotPath())
      ensures forall b: Settings :: old(allocated(b)) && b != this && old(b.Valid()) ==>
        b.Valid() && b.Get() == old(b.Get())
    {
      parsed := PushRule(parse, selector, Static(replacement));
    }

    /** `add_dynamic_redaction`: appends a rule whose replacement the callback computes. */
    method AddDynamicRedaction(parse: Parser, selector: string, func: Callback) returns (parsed: bool)
      requires Valid()
      modifies this, inner, inner.count
      ensures Valid() && parsed == parse(selector).Some?
      ensures IterRedactions() ==
        if parsed then old(IterRedactions()) + [(parse(selector).value, Replacement(func))]
        else old(IterRedactions())
      ensures SortMaps() == old(SortMaps()) && SnapshotPath() == old(SnapshotPath())
      ensures forall b: Settings :: old(allocated(b)) && b != this && old(b.Valid()) ==>
        b.Valid() && b.Get() == old(b.Get())
    {
      parsed := PushRule(parse, selector, Replacement(func));
    }

    /** `add_assertion`: appends a rule that only runs the callback on the match. */
    method AddAssertion(parse: Parser, selector: string, func: Callback) returns (parsed: bool)
      requires Valid()
      modifies this, inner, inner.count
      ensures Valid() && parsed == parse(selector).Some?
      ensures IterRedactions() ==
        if parsed then old(IterRedactions()) + [(parse(selector).value, Assertion(func))]
        else old(IterRedactions())
      ensures SortMaps() == old(SortMaps()) && SnapshotPath() == old(SnapshotPath())
      ensures forall b: Settings :: old(allocated(b)) && b != this && old(b.Valid()) ==>
        b.Valid() && b.Get() == old(b.Get())
    {
      parsed := PushRule(parse, selector, Assertion(func));
    }

    /** `set_redactions`: replaces the whole list (a `Vec` argument goes through `FromStatics` first). */
    method SetRedactions(redactions: Redactions)
      requires Valid()
      modifies this, inner, inner.count
      ensures Valid() && IterRedactions() == redactions.rules
      ensures SortMaps() == old(SortMaps()) && SnapshotPath() == old(SnapshotPath())
      ensures forall b: Settings :: old(allocated(b)) && b != this && old(b.Valid()) ==>
        b.Valid() && b.Get() == old(b.Get())
    {
      var record := MakeMut();
      record.value := record.value.(redactions := redactions);
    }

    /** `clear_redactions`. */
    method ClearRedactions()
      requires Valid()
      modifies this, inner, inner.count
      ensures Valid() && IterRedactions() == []
      ensures SortMaps() == old(SortMaps()) && SnapshotPath() == old(SnapshotPath())
      ensures forall b: Settings :: old(allocated(b)) && b != this && old(b.Valid()) ==>
        b.Valid() && b.Get() == old(b.Get())
    {
      var record := MakeMut();
      record.value := record.value.(redactions := Redactions([]));
    }

    /**
     * `self.inner = source.inner.clone()`: this handle drops its reference and
     * takes a new one on `source`'s record. (The drop is done first here; the
     * counts end the same.) `live` are other handles the caller relies on:
     * they stay valid.
     */
    method Assign(source: Settings, ghost live: set<Settings>)
      requires Valid() && source.Valid() && source != this
      requires this !in live && forall b :: b in live ==> b.Valid()
      modifies this, inner.count, source.inner.count
      ensures Valid() && inner == source.inner
      ensures forall b :: b in live ==> b.Valid()
    {
      var previous := inner.count;
      previous.strong := previous.strong - 1;
      previous.holders := previous.holders - {this};
      inner := source.inner;
      inner.count.strong := inner.count.strong + 1;
      inner.count.holders := inner.count.holders + {this};
    }

    /**
     * `self.inner = saved`: this handle drops its reference and takes over
     * the one `saved` owned; `saved` is consumed.
     */
    method MoveFrom(saved: Settings, ghost live: set<Settings>)
      requires Valid() && saved.Valid() && saved != this
      requires this !in live && saved !in live && forall b :: b in live ==> b.Valid()
      modifies this, inner.count, saved.inner.count
      ensures Valid() && inner == old(saved.inner) && saved !in inner.count.holders
      ensures forall b :: b in live ==> b.Valid()
    {
      var previous := inner.count;
      previous.strong := previous.strong - 1;
      previous.holders := previous.holders - {this};
      inner := saved.inner;
      inner.count.holders := inner.count.holders - {saved} + {this};
    }

    /** Drop: this handle gives up its reference (how `bind` loses the saved one when `f` panics). */
    method Release(ghost live: set<Settings>)
      requires Valid() && this !in live && forall b :: b in live ==> b.Valid()
      modifies inner.count
      ensures inner.count.strong == old(inner.count.strong) - 1 && this !in inner.count.holders
      ensures forall b :: b in live ==> b.Valid()
    {
      inner.count.strong := inner.count.strong - 1;
      inner.count.holders := inner.count.holders - {this};
    }

    /**
     * `bind`: installs this handle's record in the thread's slot, runs `f`,
     * then gives the slot back the reference it held before. There is no
     * guard: when `f` panics the restoring assignment is skipped and the
     * slot is left as `f` left it. Only reference counts and the slot change.
     * `live` are the handles the caller holds (`f`'s among them); `counts`
     * covers the counts of `f`'s records.
     */
    method Bind(slot: ThreadSlot, f: Body, ghost live: set<Settings>, ghost counts: set<Count>)
        returns (seen: seq<ActualSettings>, panicked: bool)
      requires slot.Valid() && slot.current !in live && this in live && Handles(f) <= live
      requires forall b :: b in live ==> b.Valid()
      requires forall h :: h in Handles(f) ==> h.inner.count in counts
      modifies slot.current, slot.current.inner.count, inner.count, counts
      ensures slot.Valid() && seen == old(Values(Trace(inner, f))) && panicked == Panics(f)
      ensures !panicked ==> slot.current.inner == old(slot.current.inner)
      ensures panicked ==> slot.current.inner == old(Final(inner, f))
      ensures panicked ==> slot.current.inner == inner || slot.current.inner.count in counts
      ensures forall b :: b in live ==> b.Valid()
      decreases f, 3
    {
      ghost var expected, final := Values(Trace(inner, f)), Final(inner, f);
      var saved := slot.Install(this, live);
      assert Values(Trace(inner, f)) == expected && Final(inner, f) == final;
      seen, panicked := slot.RunScoped(f, saved, live, counts);
    }

    /** `bind_to_thread`: the slot takes a reference on this handle's record for good. */
    method BindToThread(slot: ThreadSlot, ghost live: set<Settings>)
      requires Valid() && slot.Valid() && this != slot.current
      requires slot.current !in live && forall b :: b in live ==> b.Valid()
      modifies slot.current, slot.current.inner.count, inner.count
      ensures slot.Valid() && slot.current.inner == inner && Valid()
      ensures forall b :: b in live ==> b.Valid()
    {
      slot.current.Assign(this, live + {this});
    }
  }

  /**
   * The body `f` handed to `bind`, as the sequence of things it does to the
   * thread's settings: read them through `Settings::with`, bind a handle
   * permanently, run a nested `bind`, or panic.
   */
  datatype Body =
    | Done
    | Panic
    | Observe(rest: Body)
    | BindToThread(handle: Settings, rest: Body)
    | Bind(handle: Settings, scoped: Body, rest: Body)

  /** The handles a body mentions. */
  function Handles(f: Body): set<Settings>
  {
    match f
    case Done => {}
    case Panic => {}
    case Observe(rest) => Handles(rest)
    case BindToThread(h, rest) => {h} + Handles(rest)
    case Bind(h, scoped, rest) => {h} + Handles(scoped) + Handles(rest)
  }

  /** The records those handles refer to. */
  ghost function Cells(hs: set<Settings>): set<Shared>
    reads hs
  {
    set h | h in hs :: h.inner
  }

  /** Whether running `f` ends in a panic (a nested `bind` does not catch one). */
  predicate Panics(f: Body)
  {
    match f
    case Done => false
    case Panic => true
    case Observe(rest) => Panics(rest)
    case BindToThread(_, rest) => Panics(rest)
    case Bind(_, scoped, rest) => Panics(scoped) || Panics(rest)
  }

  /** Every `with` inside a body that only reads returns the settings of the record it was started on. */
  lemma {:induction false} ReadOnlyReadsCurrent(current: Shared, f: Body)
    requires ReadOnly(f)
    ensures forall v :: v in Values(Trace(current, f)) ==> v == current.value
  {
    match f
    case Done =>
    case Observe(rest) =>
      ReadOnlyReadsCurrent(current, rest);
      ValuesAppend([current], Trace(current, rest));
  }

  /** `f` followed by `g`. */
  function Then(f: Body, g: Body): Body
  {
    match f
    case Done => g
    case Panic => Panic
    case Observe(rest) => Observe(Then(rest, g))
    case BindToThread(h, rest) => BindToThread(h, Then(rest, g))
    case Bind(h, scoped, rest) => Bind(h, scoped, Then(rest, g))
  }

  /** The record the slot refers to at each observation of `f`, started with the slot on `current`. */
  ghost function Trace(current: Shared, f: Body): seq<Shared>
    reads Handles(f)
    decreases f
  {
    match f
    case Done => []
    case Panic => []
    case Observe(rest) => [current] + Trace(current, rest)
    case BindToThread(h, rest) => Trace(h.inner, rest)
    case Bind(h, scoped, rest) =>
      if Panics(scoped) then Trace(h.inner, scoped) else Trace(h.inner, scoped) + Trace(current, rest)
  }

  /** What `with` hands its callback when the slot refers to each of `records` in turn. */
  ghost function Values(records: seq<Shared>): seq<ActualSettings>
    reads set c | c in records
  {
    if records == [] then [] else [records[0].value] + Values(records[1..])
  }

  lemma {:induction false} ValuesAppend(a: seq<Shared>, b: seq<Shared>)
    ensures Values(a + b) == Values(a) + Values(b)
  {
    if a == [] {
      assert a + b == b;
    } else {
      assert (a + b)[0] == a[0] && (a + b)[1..] == a[1..] + b;
      ValuesAppend(a[1..], b);
    }
  }

  /** The record the slot refers to once `f` has returned or panicked. */
  ghost function Final(current: Shared, f: Body): Shared
    reads Handles(f)
    decreases f
  {
    match f
    case Done => current
    case Panic => current
    case Observe(rest) => Final(current, rest)
    case BindToThread(h, rest) => Final(h.inner, rest)
    case Bind(h, scoped, rest) => if Panics(scoped) then Final(h.inner, scoped) else Final(current, rest)
  }

  /** `f` makes no permanent binding of its own (the bodies of its nested binds may). */
  predicate NoPermanentBind(f: Body)
  {
    match f
    case Done => true
    case Panic => true
    case Observe(rest) => NoPermanentBind(rest)
    case BindToThread(_, _) => false
    case Bind(_, _, rest) => NoPermanentBind(rest)
  }

  /** `f` only reads the thread's settings. */
  predicate ReadOnly(f: Body)
  {
    match f
    case Done => true
    case Observe(rest) => ReadOnly(rest)
    case _ => false
  }

  /** A nested `bind` that returns restores the slot, so only a permanent binding can move it. */
  lemma {:induction false} ScopesRestore(current: Shared, f: Body)
    requires NoPermanentBind(f) && !Panics(f)
    ensures Final(current, f) == current
  {
    match f
    case Done =>
    case Observe(rest) => ScopesRestore(current, rest);
    case Bind(_, _, rest) => ScopesRestore(current, rest);
  }

  /**
   * Without a guard, a panic inside `bind` skips the restore: the slot stays
   * where the scoped body left it, and nothing after the `bind` reads.
   */
  lemma PanicSkipsRestore(current: Shared, h: Settings, scoped: Body, rest: Body, g: Body)
    requires Panics(scoped)
    ensures Final(current, Bind(h, scoped, rest)) == Final(h.inner, scoped)
    ensures Final(current, Then(Bind(h, scoped, rest), g)) == Final(h.inner, scoped)
    ensures Trace(current, Then(Bind(h, scoped, rest), g)) == Trace(h.inner, scoped)
  {
  }

  /** In particular, a scoped body that panics at once leaves the slot on the bound record. */
  lemma ImmediatePanicLeavesBound(current: Shared, h: Settings, rest: Body)
    ensures Final(current, Bind(h, Panic, rest)) == h.inner
  {
  }

  /** Once `f` has ended, the slot refers to the record it started on or to one that `f` bound. */
  lemma {:induction false} FinalIsBound(current: Shared, f: Body)
    ensures Final(current, f) == current || Final(current, f) in Cells(Handles(f))
  {
    match f
    case Done =>
    case Panic =>
    case Observe(rest) => FinalIsBound(current, rest);
    case BindToThread(h, rest) => FinalIsBound(h.inner, rest);
    case Bind(h, scoped, rest) =>
      if Panics(scoped) {
        FinalIsBound(h.inner, scoped);
      } else {
        FinalIsBound(current, rest);
      }
  }

  /** Every observation sees the starting record or one that `f` bound, never anything else. */
  lemma {:induction false} ObservationsAreBound(current: Shared, f: Body)
    ensures forall c :: c in Trace(current, f) ==> c == current || c in Cells(Handles(f))
  {
    match f
    case Done =>
    case Panic =>
    case Observe(rest) => ObservationsAreBound(current, rest);
    case BindToThread(h, rest) => ObservationsAreBound(h.inner, rest);
    case Bind(h, scoped, rest) =>
      ObservationsAreBound(h.inner, scoped);
      ObservationsAreBound(current, rest);
  }

  /** A body that only reads sees the record it was started on, every time. */
  lemma {:induction false} ReadOnlySeesCurrent(current: Shared, f: Body)
    requires ReadOnly(f)
    ensures forall i :: 0 <= i < |Trace(current, f)| ==> Trace(current, f)[i] == current
  {
    match f
    case Done =>
    case Observe(rest) => ReadOnlySeesCurrent(current, rest);
  }

  /** `f` then `g` panics exactly when one of them does. */
  lemma {:induction false} ThenPanics(f: Body, g: Body)
    ensures Panics(Then(f, g)) == (Panics(f) || Panics(g))
  {
    match f
    case Done =>
    case Panic =>
    case Observe(rest) => ThenPanics(rest, g);
    case BindToThread(_, rest) => ThenPanics(rest, g);
    case Bind(_, _, rest) => ThenPanics(rest, g);
  }

  /** When `f` panics, nothing of `g` runs. */
  lemma {:induction false} ThenStops(current: Shared, f: Body, g: Body)
    requires Panics(f)
    ensures Final(current, Then(f, g)) == Final(current, f)
    ensures Trace(current, Then(f, g)) == Trace(current, f)
  {
    match f
    case Panic =>
    case Observe(rest) => ThenStops(current, rest, g);
    case BindToThread(h, rest) => ThenStops(h.inner, rest, g);
    case Bind(h, scoped, rest) =>
      if !Panics(scoped) {
        ThenStops(current, rest, g);
      }
  }

  /** When `f` returns, `f` then `g` leaves the slot where `g` leaves it, started from where `f` left it. */
  lemma {:induction false} ThenFinal(current: Shared, f: Body, g: Body)
    requires !Panics(f)
    ensures Final(current, Then(f, g)) == Final(Final(current, f), g)
  {
    match f
    case Done =>
    case Observe(rest) => ThenFinal(current, rest, g);
    case BindToThread(h, rest) => ThenFinal(h.inner, rest, g);
    case Bind(h, scoped, rest) => ThenFinal(current, rest, g);
  }

  /** When `f` returns, the reads of `f` then `g` are those of `f` followed by those of `g` from where `f` left the slot. */
  lemma {:induction false} ThenComposes(current: Shared, f: Body, g: Body)
    requires !Panics(f)
    ensures Trace(current, Then(f, g)) == Trace(current, f) + Trace(Final(current, f), g)
  {
    match f
    case Done =>
    case Observe(rest) =>
      ThenComposes(current, rest, g);
    case BindToThread(h, rest) =>
      ThenComposes(h.inner, rest, g);
    case Bind(h, scoped, rest) =>
      ThenComposes(current, rest, g);
  }

  /**
   * After `bind_to_thread(h)`, a read made after any number of scoped binds
   * that return still sees `h`'s record.
   */
  lemma PermanentBindPersists(current: Shared, h: Settings, g: Body)
    requires NoPermanentBind(g) && !Panics(g)
    ensures Final(current, BindToThread(h, g)) == h.inner
    ensures var t := Trace(current, BindToThread(h, Then(g, Observe(Done))));
      |t| > 0 && t[|t| - 1] == h.inner
  {
    ScopesRestore(h.inner, g);
    ThenComposes(h.inner, g, Observe(Done));
  }

  /** `CURRENT_SETTINGS` for one thread: the handle that `with` reads and `bind` swaps. */
  class ThreadSlot {
    const current: Settings

    ghost predicate Valid()
      reads this, current, current.inner, current.inner.count
    {
      current.Valid()
    }

    /** First access on a thread: the slot starts as `Settings::new()`. */
    constructor (defaults: Settings)
      requires defaults.Valid() && defaults.Get() == DefaultRecord
      modifies defaults.inner.count
      ensures Valid() && fresh(current) && current.inner == defaults.inner
      ensures current.Get() == DefaultRecord
      ensures forall b: Settings :: old(allocated(b)) && old(b.Valid()) ==> b.Valid()
    {
      var initial := Settings.New(defaults);
      current := initial;
    }

    /** `Settings::with`: `f` is given the settings currently bound on the thread. */
    function With<R>(f: ActualSettings -> R): (r: R)
      reads this, current, current.inner
      ensures r == f(current.Get())
    {
      f(current.inner.value)
    }

    /**
     * The first half of `bind`: keep a clone of the slot's reference, then
     * make the slot share `handle`'s record. The clone is returned.
     */
    method Install(handle: Settings, ghost live: set<Settings>) returns (saved: Settings)
      requires Valid() && handle.Valid() && handle != current
      requires current !in live && forall b :: b in live ==> b.Valid()
      modifies current, current.inner.count, handle.inner.count
      ensures Valid() && current.inner == handle.inner
      ensures fresh(saved) && saved.Valid() && saved.inner == old(current.inner)
      ensures forall b :: b in live ==> b.Valid()
    {
      saved := new Settings.CloneOf(current);
      current.Assign(handle, live + {saved});
    }

    /**
     * The rest of `bind` once the slot is installed: run `f`, then give the
     * slot back the reference kept in `saved` or, when `f` panicked, drop it.
     */
    method RunScoped(f: Body, saved: Settings, ghost live: set<Settings>, ghost counts: set<Count>)
        returns (seen: seq<ActualSettings>, panicked: bool)
      requires Valid() && saved.Valid() && saved != current && saved !in live
      requires current !in live && Handles(f) <= live
      requires forall b :: b in live ==> b.Valid()
      requires forall h :: h in Handles(f) ==> h.inner.count in counts
      modifies current, current.inner.count, saved.inner.count, counts
      ensures Valid() && seen == old(Values(Trace(current.inner, f))) && panicked == Panics(f)
      ensures !panicked ==> current.inner == old(saved.inner)
      ensures panicked ==> current.inner == old(Final(current.inner, f))
      ensures panicked ==> current.inner == old(current.inner) || current.inner.count in counts
      ensures saved !in saved.inner.count.holders
      ensures forall b :: b in live ==> b.Valid()
      decreases f, 2
    {
      seen, panicked := Run(f, live + {saved}, counts);
      if panicked {
        saved.Release(live + {current});
      } else {
        current.MoveFrom(saved, live);
      }
    }

    /** Runs the body `f` on this thread (see `Settings.Bind` for `live` and `counts`). */
    method Run(f: Body, ghost live: set<Settings>, ghost counts: set<Count>)
        returns (seen: seq<ActualSettings>, panicked: bool)
      requires Valid() && current !in live && Handles(f) <= live
      requires forall b :: b in live ==> b.Valid()
      requires forall h :: h in Handles(f) ==> h.inner.count in counts
      modifies current, current.inner.count, counts
      ensures Valid() && current.inner == old(Final(current.inner, f))
      ensures current.inner == old(current.inner) || current.inner.count in counts
      ensures seen == old(Values(Trace(current.inner, f))) && panicked == Panics(f)
      ensures forall b :: b in live ==> b.Valid()
      decreases f, 1
    {
      match f
      case Done =>
        seen, panicked := [], false;
      case Panic =>
        seen, panicked := [], true;
      case Observe(rest) =>
        var now := With(s => s);
        var later;
        later, panicked := Run(rest, live, counts);
        seen := [now] + later;
      case BindToThread(h, rest) =>
        ghost var restValues, restFinal := Values(Trace(h.inner, rest)), Final(h.inner, rest);
        h.BindToThread(this, live);
        assert Values(Trace(h.inner, rest)) == restValues && Final(h.inner, rest) == restFinal;
        seen, panicked := Run(rest, live, counts);
      case Bind(_, _, _) =>
        seen, panicked := RunNested(f, live, counts);
    }

    /** `Run` on a body that starts with a nested `bind`; a panic inside it skips the rest. */
    method RunNested(f: Body, ghost live: set<Settings>, ghost counts: set<Count>)
        returns (seen: seq<ActualSettings>, panicked: bool)
      requires f.Bind?
      requires Valid() && current !in live && Handles(f) <= live
      requires forall b :: b in live ==> b.Valid()
      requires forall h :: h in Handles(f) ==> h.inner.count in counts
      modifies current, current.inner.count, counts
      ensures Valid() && current.inner == old(Final(current.inner, f))
      ensures current.inner == old(current.inner) || current.inner.count in counts
      ensures seen == old(Values(Trace(current.inner, f))) && panicked == Panics(f)
      ensures forall b :: b in live ==> b.Valid()
      decreases f, 0
    {
      ghost var start := current.inner;
      ghost var restValues, restFinal := Values(Trace(start, f.rest)), Final(start, f.rest);
      ghost var expected, final := Values(Trace(start, f)), Final(start, f);
      ValuesAppend(Trace(f.handle.inner, f.scoped), Trace(start, f.rest));
      seen, panicked := f.handle.Bind(this, f.scoped, live, counts);
      if !panicked {
        assert Values(Trace(start, f.rest)) == restValues && Final(start, f.rest) == restFinal;
        var after;
        after, panicked := Run(f.rest, live, counts);
        seen := seen + after;
      }
      assert seen == expected && current.inner == final;
    }
  }
}
