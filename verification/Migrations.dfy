/**
 The migrator of infra/db/migrator.ts. A schema is whatever the SQL of the migrations acts
 on; a script either transforms it or throws, and PostgreSQL undoes a script that throws.
 Versions are numbers here: their order is that of the file names.
 */
module Migrations {
  import opened Options

  /** What happens to the connection: nothing, it breaks before COMMIT, or COMMIT takes effect and throws. */
  datatype Fault = Fine | Refused | Unacknowledged

  type Version = nat
  type Time = int

  datatype Reply<+T> = Returned(value: T) | Threw(error: string)

  datatype Migration<!S> = Migration(version: Version, up: S -> Option<S>, down: S -> Option<S>)

  // ----- the stack of applied migrations

  ghost predicate Sorted<S>(files: seq<Migration<S>>) {
    forall i, j | 0 <= i < j < |files| :: files[i].version < files[j].version
  }

  /** The ups of the stack, in the order of their application. */
  function Fold<S>(catalog: map<Version, Migration<S>>, first: S, stack: seq<Version>): Option<S> {
    if stack == [] then Some(first)
    else
      var last := stack[|stack| - 1];
      match Fold(catalog, first, stack[..|stack| - 1])
      case None => None
      case Some(s) => if last in catalog then catalog[last].up(s) else None
  }

  /** Every down script undoes its up script. */
  ghost predicate DownsUndoUps<S(!new)>(catalog: map<Version, Migration<S>>) {
    forall v, s | v in catalog && catalog[v].up(s).Some? :: catalog[v].down(catalog[v].up(s).value) == Some(s)
  }

  /** `ORDER BY applied_at DESC, version DESC` puts `a` before `b`. */
  predicate AppliedAfter(rows: map<Version, Time>, a: Version, b: Version)
    requires a in rows && b in rows
  {
    rows[a] > rows[b] || (rows[a] == rows[b] && a > b)
  }

  /** `v` is the first row of `ORDER BY applied_at DESC, version DESC`. */
  ghost predicate IsNewest(rows: map<Version, Time>, v: Version) {
    v in rows && forall u | u in rows :: u == v || AppliedAfter(rows, v, u)
  }

  /** The bookkeeping rows are the stack, and their order is that of the stack. */
  ghost predicate Records(rows: map<Version, Time>, stack: seq<Version>) {
    if stack == [] then rows == map[]
    else var v := stack[|stack| - 1]; IsNewest(rows, v) && Records(rows - {v}, stack[..|stack| - 1])
  }

  /** The pending files in order: what `migrateUp` sets out to apply. */
  function Pending<S>(files: seq<Migration<S>>, applied: set<Version>): seq<Version> {
    if files == [] then []
    else (if files[0].version in applied then [] else [files[0].version]) + Pending(files[1..], applied)
  }

  function AlreadyApplied<S>(files: seq<Migration<S>>, applied: set<Version>): seq<Version> {
    if files == [] then []
    else (if files[0].version in applied then [files[0].version] else []) + AlreadyApplied(files[1..], applied)
  }

  function Reversed(s: seq<Version>): seq<Version> {
    if s == [] then [] else [s[|s| - 1]] + Reversed(s[..|s| - 1])
  }

  lemma {:induction false} FoldOneMore<S>(catalog: map<Version, Migration<S>>,
      first: S, stack: seq<Version>, v: Version)
    ensures Fold(catalog, first, stack + [v])
         == match Fold(catalog, first, stack)
            case None => None
            case Some(s) => if v in catalog then catalog[v].up(s) else None
  {
    assert (stack + [v])[..|stack|] == stack;
  }

  lemma {:induction false} FoldStaysNone<S>(
    catalog: map<Version, Migration<S>>, first: S, stack: seq<Version>, more: seq<Version>)
    requires Fold(catalog, first, stack) == None
    ensures Fold(catalog, first, stack + more) == None
    decreases |more|
  {
    if more == [] {
      assert stack + more == stack;
    } else {
      FoldStaysNone(catalog, first, stack, more[..|more| - 1]);
      assert (stack + more)[..|stack + more| - 1] == stack + more[..|more| - 1];
    }
  }

  lemma PendingOneMore<S>(files: seq<Migration<S>>, i: nat, applied: set<Version>)
    requires i < |files|
    ensures var v := files[i].version;
            && Pending(files[..i + 1], applied) == Pending(files[..i], applied) + (if v in applied then [] else [v])
            && AlreadyApplied(files[..i + 1], applied) ==
                 AlreadyApplied(files[..i], applied) + (if v in applied then [v] else [])
  {
    if i > 0 {
      PendingOneMore(files[1..], i - 1, applied);
      assert files[..i + 1][1..] == files[1..][..i] && files[..i][1..] == files[1..][..i - 1];
    }
  }

  lemma {:induction false} ReversedParts(a: seq<Version>, b: seq<Version>)
    ensures Reversed(a + b) == Reversed(b) + Reversed(a)
    decreases |b|
  {
    if b == [] {
      assert a + b == a;
    } else {
      assert (a + b)[..|a + b| - 1] == a + b[..|b| - 1];
      ReversedParts(a, b[..|b| - 1]);
    }
  }

  function Last(stack: seq<Version>, k: nat): seq<Version>
    requires k <= |stack|
  {
    stack[|stack| - k..]
  }

  function Min(a: nat, b: nat): nat {
    if a < b then a else b
  }

  /** The last k + 1 in reverse are the last k in reverse and the one before. */
  lemma LastOneMore(stack: seq<Version>, k: nat)
    requires k < |stack|
    ensures Reversed(Last(stack, k + 1)) == Reversed(Last(stack, k)) + [stack[|stack| - 1 - k]]
  {
    var v := stack[|stack| - 1 - k];
    assert Last(stack, k + 1) == [v] + Last(stack, k);
    ReversedParts([v], Last(stack, k));
    assert Reversed([v]) == [v] by {
      assert [v][..0] == [];
    }
  }

  lemma RecordsPushed(rows: map<Version, Time>, stack: seq<Version>, v: Version, now: Time)
    requires Records(rows, stack) && v !in rows && ComesLast(rows, now, v)
    ensures Records(rows[v := now], stack + [v])
  {
    assert rows[v := now] - {v} == rows;
    assert (stack + [v])[..|stack|] == stack;
  }

  /** The order in which `now` would be recorded: after everything that is. */
  ghost predicate ComesLast(rows: map<Version, Time>, now: Time, v: Version) {
    forall u | u in rows :: rows[u] < now || (rows[u] == now && u < v)
  }

  lemma TopIs(stack: seq<Version>, i: nat)
    requires i < |stack|
    ensures var rest := stack[..|stack| - i];
            rest != [] && rest[|rest| - 1] == stack[|stack| - 1 - i] && rest[..|rest| - 1] == stack[..|stack| - (i + 1)]
  {
  }

  /** There is only one newest row: the top of the stack. */
  lemma NewestIsTop(rows: map<Version, Time>, stack: seq<Version>, v: Version)
    requires Records(rows, stack) && IsNewest(rows, v)
    ensures stack != [] && v == stack[|stack| - 1] && Records(rows - {v}, stack[..|stack| - 1])
  {
  }

  /** With `n` rows selected, the newest of the rest is the next of the stack from the top. */
  lemma SelectedOneMore(stack: seq<Version>, n: nat, rest: map<Version, Time>, newest: Version)
    requires n <= |stack| && Records(rest, stack[..|stack| - n]) && rest != map[] && IsNewest(rest, newest)
    ensures n < |stack| && Reversed(Last(stack, n + 1)) == Reversed(Last(stack, n)) + [newest]
    ensures Records(rest - {newest}, stack[..|stack| - (n + 1)])
  {
    var remaining := stack[..|stack| - n];
    NewestIsTop(rest, remaining, newest);
    LastOneMore(stack, n);
    assert remaining[..|remaining| - 1] == stack[..|stack| - (n + 1)];
  }

  /** The bookkeeping rows are the stack, and the schema is the fold of the stack's ups. */
  ghost predicate Consistent<S>(
    catalog: map<Version, Migration<S>>, first: S, stack: seq<Version>, rows: map<Version, Time>, schema: S)
  {
    Records(rows, stack) && Fold(catalog, first, stack) == Some(schema)
  }

  lemma UpIsPush<S>(
    catalog: map<Version, Migration<S>>, first: S, stack: seq<Version>,
    rows: map<Version, Time>, schema: S, v: Version, now: Time)
    requires Consistent(catalog, first, stack, rows, schema) && v in catalog && catalog[v].up(schema).Some?
    requires v !in rows && ComesLast(rows, now, v)
    ensures Consistent(catalog, first, stack + [v], rows[v := now], catalog[v].up(schema).value)
  {
    RecordsPushed(rows, stack, v, now);
    FoldOneMore(catalog, first, stack, v);
  }

  lemma DownIsPop<S(!new)>(
    catalog: map<Version, Migration<S>>, first: S, stack: seq<Version>, rows: map<Version, Time>, schema: S, v: Version)
    requires Consistent(catalog, first, stack, rows, schema) && DownsUndoUps(catalog)
    requires stack != [] && stack[|stack| - 1] == v
    ensures v in catalog && catalog[v].down(schema).Some?
    ensures Consistent(catalog, first, stack[..|stack| - 1], rows - {v}, catalog[v].down(schema).value)
  {
    var rest := stack[..|stack| - 1];
    assert stack == rest + [v];
    FoldOneMore(catalog, first, rest, v);
    var before := Fold(catalog, first, rest).value;
    assert catalog[v].up(before) == Some(schema);
  }

  lemma {:induction false} PendingPrefix<S>(files: seq<Migration<S>>, i: nat, applied: set<Version>)
    requires i <= |files|
    ensures Pending(files[..i], applied) <= Pending(files, applied)
  {
    if i > 0 {
      PendingPrefix(files[1..], i - 1, applied);
      assert files[..i][1..] == files[1..][..i - 1];
    }
  }

  /** The loop of `migrateUp` has dealt with the first `i` files. */
  ghost predicate UpProgress<S>(files: seq<Migration<S>>, i: nat, before: set<Version>,
      applied: seq<Version>, skipped: seq<Version>)
    requires i <= |files|
  {
    applied == Pending(files[..i], before) && skipped == AlreadyApplied(files[..i], before)
  }

  lemma UpProgresses<S>(files: seq<Migration<S>>, i: nat, before: set<Version>,
      applied: seq<Version>, skipped: seq<Version>)
    requires i < |files| && UpProgress(files, i, before, applied, skipped)
    ensures var v := files[i].version;
            if v in before then UpProgress(files, i + 1, before, applied, skipped + [v])
            else UpProgress(files, i + 1, before, applied + [v], skipped)
  {
    PendingOneMore(files, i, before);
  }

  lemma UpIsPrefix<S>(files: seq<Migration<S>>, i: nat, before: set<Version>,
      applied: seq<Version>, skipped: seq<Version>)
    requires i <= |files| && UpProgress(files, i, before, applied, skipped)
    ensures applied <= Pending(files, before)
  {
    PendingPrefix(files, i, before);
  }

  lemma UpIsDone<S>(files: seq<Migration<S>>, before: set<Version>, applied: seq<Version>, skipped: seq<Version>)
    requires UpProgress(files, |files|, before, applied, skipped)
    ensures applied == Pending(files, before) && skipped == AlreadyApplied(files, before)
  {
    assert files[..|files|] == files;
  }

  /** The migration files of the version are there. */
  ghost predicate IsLocal<S>(files: seq<Migration<S>>, version: Version) {
    exists m :: m in files && m.version == version
  }

  /** Of the first `n` versions to roll back all are local, and no connection breaks. */
  ghost predicate Undoable<S>(files: seq<Migration<S>>, versions: seq<Version>, faults: nat -> Fault, n: nat)
    requires n <= |versions|
  {
    forall i | 0 <= i < n :: faults(i).Fine? && IsLocal(files, versions[i])
  }

  lemma UndoableOneMore<S>(files: seq<Migration<S>>, versions: seq<Version>, faults: nat -> Fault, i: nat)
    requires i < |versions| && Undoable(files, versions, faults, i)
    ensures Undoable(files, versions, faults, i + 1) <==> faults(i).Fine? && IsLocal(files, versions[i])
    ensures !Undoable(files, versions, faults, i + 1) ==> !Undoable(files, versions, faults, |versions|)
  {
  }

  /** Every pending script succeeds on the schema that the ones before it leave, and no connection breaks. */
  ghost predicate RunsThrough<S>(
    catalog: map<Version, Migration<S>>, first: S, stack: seq<Version>, files: seq<Migration<S>>,
    before: set<Version>, faults: seq<Fault>)
    requires |faults| == |files|
  {
    && Fold(catalog, first, stack + Pending(files, before)).Some?
    && forall i | 0 <= i < |files| && files[i].version !in before :: faults[i].Fine?
  }

  /** A pending version is not recorded while the files before it are applied. */
  lemma PendingIsNew<S>(files: seq<Migration<S>>, i: nat, before: map<Version, Time>, stack: seq<Version>,
      rows: map<Version, Time>, applied: seq<Version>)
    requires Sorted(files) && i < |files| && files[i].version !in before && applied == Pending(files[..i], before.Keys)
    requires Records(before, stack) && Records(rows, stack + applied)
    ensures files[i].version !in rows
  {
    var v := files[i].version;
    RowsAreStack(before, stack, v);
    RowsAreStack(rows, stack + applied, v);
    PendingMembers(files[..i], before.Keys, v);
    forall m | m in files[..i] ensures m.version != v {
      var k :| 0 <= k < i && files[k] == m;
    }
  }

  /** If the next pending script throws, the whole list cannot run through. */
  lemma NextScriptDecides<S>(
    catalog: map<Version, Migration<S>>, first: S, stack: seq<Version>, schema: S, files: seq<Migration<S>>, i: nat,
    before: seq<Version>, known: set<Version>, applied: seq<Version>, skipped: seq<Version>)
    requires i < |files| && files[i].version !in known && UpProgress(files, i, known, applied, skipped)
    requires stack == before + applied && Fold(catalog, first, stack) == Some(schema)
    requires files[i].version in catalog && catalog[files[i].version] == files[i]
    ensures files[i].up(schema).None? ==> Fold(catalog, first, before + Pending(files, known)).None?
  {
    var v := files[i].version;
    UpProgresses(files, i, known, applied, skipped);
    UpIsPrefix(files, i + 1, known, applied + [v], skipped);
    FoldOneMore(catalog, first, stack, v);
    if files[i].up(schema).None? {
      var rest := Pending(files, known)[|applied| + 1..];
      assert before + Pending(files, known) == (stack + [v]) + rest;
      FoldStaysNone(catalog, first, stack + [v], rest);
    }
  }

  /** The rows so far come before what the remaining files will be recorded with. */
  ghost predicate TimesAhead<S>(rows: map<Version, Time>, files: seq<Migration<S>>, clock: seq<Time>, i: nat)
    requires |clock| == |files|
  {
    && Sorted(files) && (forall j, k | 0 <= j <= k < |clock| :: clock[j] <= clock[k])
    && forall v, j | v in rows && i <= j < |files| ::
         rows[v] < clock[j] || (rows[v] <= clock[j] && v < files[j].version)
  }

  lemma TimesComeLast<S>(rows: map<Version, Time>, files: seq<Migration<S>>, clock: seq<Time>, i: nat)
    requires |clock| == |files| && i < |files| && TimesAhead(rows, files, clock, i)
    ensures ComesLast(rows, clock[i], files[i].version)
    ensures TimesAhead(rows[files[i].version := clock[i]], files, clock, i + 1)
  {
  }

  lemma {:induction false} ReversedIndex(s: seq<Version>)
    ensures |Reversed(s)| == |s| && forall i | 0 <= i < |s| :: Reversed(s)[i] == s[|s| - 1 - i]
  {
    if s != [] {
      ReversedIndex(s[..|s| - 1]);
    }
  }

  lemma LastReversed(stack: seq<Version>, k: nat)
    requires k <= |stack|
    ensures var last := Reversed(Last(stack, k));
            |last| == k && forall i | 0 <= i < k :: last[i] == stack[|stack| - 1 - i]
  {
    ReversedIndex(Last(stack, k));
  }

  datatype Direction = Up | Down

  function Script<S>(m: Migration<S>, direction: Direction): S -> Option<S> {
    match direction
    case Up => m.up
    case Down => m.down
  }

  class Migrator<S(!new)> {
    const files: seq<Migration<S>>
    var schema: S
    var rows: map<Version, Time>

    /** All migrations there ever were, the schema before the first, and what is applied, oldest first. */
    ghost const catalog: map<Version, Migration<S>>
    ghost const first: S
    ghost var stack: seq<Version>

    ghost predicate FilesOk()
      reads this
    {
      Sorted(files) && (forall m | m in files :: m.version in catalog && catalog[m.version] == m)
          && DownsUndoUps(catalog)
    }

    ghost predicate Valid()
      reads this
    {
      FilesOk() && Consistent(catalog, first, stack, rows, schema)
    }

    constructor (files: seq<Migration<S>>, schema: S, ghost catalog: map<Version, Migration<S>>)
      requires Sorted(files) && (forall m | m in files :: m.version in catalog && catalog[m.version] == m)
      requires DownsUndoUps(catalog)
      ensures Valid() && stack == [] && rows == map[] && this.schema == schema && this.files == files
    {
      this.files, this.schema, this.catalog, this.first := files, schema, catalog, schema;
      rows, stack := map[], [];
    }

    /** One script and its bookkeeping in one transaction. */
    method ApplySqlWithBookkeeping(direction: Direction, m: Migration<S>, now: Time, fault: Fault)
        returns (reply: Reply<()>, ghost committed: bool)
      requires Valid() && m in files
      requires direction.Up? ==> ComesLast(rows, now, m.version)
      requires direction.Down? ==> stack != [] && stack[|stack| - 1] == m.version
      modifies this
      ensures Valid()
      ensures committed <==> && !fault.Refused? && Script(m, direction)(old(schema)).Some?
                             && (direction.Up? ==> m.version !in old(rows))
      ensures reply.Returned? <==> committed && fault.Fine?
      ensures !committed ==> stack == old(stack) && rows == old(rows) && schema == old(schema)
      ensures committed && direction.Up? ==>
                stack == old(stack) + [m.version] && rows == old(rows)[m.version := now]
      ensures committed && direction.Down? ==>
                stack == old(stack)[..|old(stack)| - 1] && rows == old(rows) - {m.version}
    {
      committed := false;
      var savedSchema, savedRows := schema, rows;
      var result := Script(m, direction)(schema);
      if result.None? {
        return Threw("sql"), false;
      }
      if direction.Up? && m.version in rows {
        return Threw("23505"), false;
      }
      ghost var stack' := if direction.Up? then stack + [m.version] else stack[..|stack| - 1];
      if direction.Up? {
        UpIsPush(catalog, first, stack, rows, schema, m.version, now);
      } else {
        DownIsPop(catalog, first, stack, rows, schema, m.version);
      }
      schema := result.value;
      rows := if direction.Up? then rows[m.version := now] else rows - {m.version};
      if fault.Refused? {
        schema, rows := savedSchema, savedRows;
        return Threw("connection"), false;
      }
      stack, committed := stack', true;
      reply := if fault.Fine? then Returned(()) else Threw("connection");
    }

    method ApplyPending(i: nat, clock: seq<Time>, fault: Fault) returns (reply: Reply<()>, ghost committed: bool)
      requires Valid() && |clock| == |files| && i < |files| && TimesAhead(rows, files, clock, i)
      modifies this
      ensures Valid()
      ensures stack == if committed then old(stack) + [files[i].version] else old(stack)
      ensures reply.Returned? <==> committed && fault.Fine?
      ensures committed <==>
                !fault.Refused? && files[i].up(old(schema)).Some? && files[i].version !in old(rows)
      ensures committed ==> TimesAhead(rows, files, clock, i + 1)
    {
      TimesComeLast(rows, files, clock, i);
      reply, committed := ApplySqlWithBookkeeping(Up, files[i], clock[i], fault);
    }

    /** One turn of that loop, for a file that is pending; `before` and `rows0` are what the run found. */
    method ApplyNext(i: nat, clock: seq<Time>, fault: Fault, ghost rows0: map<Version, Time>,
        ghost before: seq<Version>, ghost applied: seq<Version>, ghost skipped: seq<Version>)
      returns (reply: Reply<()>, ghost pushed: seq<Version>)
      requires Valid() && |clock| == |files| && i < |files| && TimesAhead(rows, files, clock, i)
      requires files[i].version !in rows0 && Records(rows0, before) && stack == before + applied
      requires UpProgress(files, i, rows0.Keys, applied, skipped)
      modifies this
      ensures Valid() && stack == before + pushed && pushed <= Pending(files, rows0.Keys)
      ensures reply.Returned? ==>
                fault.Fine? && pushed == applied + [files[i].version] && TimesAhead(rows, files, clock, i + 1)
      ensures reply.Threw? ==> !fault.Fine? || Fold(catalog, first, before + Pending(files, rows0.Keys)).None?
    {
      ghost var v := files[i].version;
      assert before + (applied + [v]) == stack + [v];
      PendingIsNew(files, i, rows0, before, rows, applied);
      NextScriptDecides(catalog, first, stack, schema, files, i, before, rows0.Keys, applied, skipped);
      UpProgresses(files, i, rows0.Keys, applied, skipped);
      ghost var committed;
      reply, committed := ApplyPending(i, clock, fault);
      pushed := if committed then applied + [v] else applied;
      UpIsPrefix(files, if committed then i + 1 else i, rows0.Keys, pushed, skipped);
    }

    /** The loop of `migrateUp`; `pushed` is what has taken effect, the script whose COMMIT threw included. */
    method ApplyEach(appliedVersions: set<Version>, clock: seq<Time>, faults: seq<Fault>)
      returns (reply: Reply<()>, applied: seq<Version>, skipped: seq<Version>, ghost pushed: seq<Version>)
      requires Valid() && |clock| == |faults| == |files| && TimesAhead(rows, files, clock, 0)
      requires appliedVersions == rows.Keys
      modifies this
      ensures Valid() && stack == old(stack) + pushed
      ensures pushed <= Pending(files, appliedVersions)
      ensures reply.Returned? ==> pushed == applied && UpProgress(files, |files|, appliedVersions, applied, skipped)
      ensures reply.Returned? <==> RunsThrough(catalog, first, old(stack), files, appliedVersions, faults)
    {
      applied, skipped, pushed := [], [], [];
      for i := 0 to |files|
        invariant Valid() && stack == old(stack) + pushed && pushed == applied
        invariant UpProgress(files, i, appliedVersions, applied, skipped) && TimesAhead(rows, files, clock, i)
        invariant forall k | 0 <= k < i && files[k].version !in appliedVersions :: faults[k].Fine?
      {
        var version := files[i].version;
        UpProgresses(files, i, appliedVersions, applied, skipped);
        if version in appliedVersions {
          skipped := skipped + [version];
        } else {
          reply, pushed := ApplyNext(i, clock, faults[i], old(rows), old(stack), applied, skipped);
          if reply.Threw? {
            return;
          }
          applied := applied + [version];
        }
      }
      UpIsPrefix(files, |files|, appliedVersions, applied, skipped);
      UpIsDone(files, appliedVersions, applied, skipped);
      reply := Returned(());
    }

    /**
     `migrateUp`: pushes the pending migrations in order, and stops at the first that throws.
     `applied_at` grows from run to run and does not fall within one; ties are broken by the
     version, as `rollbackLast` breaks them. `done` counts the scripts that have taken effect,
     one whose COMMIT threw included.
     */
    method MigrateUp(clock: seq<Time>, faults: seq<Fault>)
        returns (reply: Reply<(seq<Version>, seq<Version>)>, ghost done: nat)
      requires Valid() && |clock| == |faults| == |files|
      requires forall i, j | 0 <= i <= j < |clock| :: clock[i] <= clock[j]
      requires forall v, i | v in rows && 0 <= i < |clock| :: rows[v] < clock[i]
      modifies this
      ensures Valid()
      ensures done <= |Pending(files, old(rows).Keys)| && stack == old(stack) + Pending(files, old(rows).Keys)[..done]
      ensures reply.Returned? ==>
                && done == |Pending(files, old(rows).Keys)|
                && reply.value == (Pending(files, old(rows).Keys), AlreadyApplied(files, old(rows).Keys))
      ensures reply.Returned? <==> RunsThrough(catalog, first, old(stack), files, old(rows).Keys, faults)
    {
      var appliedVersions := rows.Keys;
      var each, applied, skipped;
      ghost var pushed;
      each, applied, skipped, pushed := ApplyEach(appliedVersions, clock, faults);
      done := |pushed|;
      if each.Threw? {
        reply := Threw(each.error);
      } else {
        UpIsDone(files, appliedVersions, applied, skipped);
        reply := Returned((applied, skipped));
      }
    }

    /** The row that `ORDER BY applied_at DESC, version DESC` puts first among `rest`. */
    method Newest(rest: map<Version, Time>) returns (newest: Version)
      requires rest != map[]
      ensures IsNewest(rest, newest)
    {
      assert rest.Keys != {};
      newest :| newest in rest;
      var others := rest.Keys - {newest};
      while others != {}
        invariant others <= rest.Keys && newest in rest
        invariant forall v | v in rest :: v in others || v == newest || AppliedAfter(rest, newest, v)
        decreases |others|
      {
        var v :| v in others;
        others := others - {v};
        if AppliedAfter(rest, v, newest) {
          newest := v;
        }
      }
    }

    method SelectLast(steps: nat) returns (selected: seq<Version>)
      requires Records(rows, stack)
      ensures selected == Reversed(Last(stack, Min(steps, |stack|)))
    {
      selected := [];
      var rest := rows;
      assert stack[..|stack|] == stack;
      while |selected| < steps && rest != map[]
        invariant |selected| <= |stack| && |selected| <= steps
        invariant selected == Reversed(Last(stack, |selected|))
        invariant Records(rest, stack[..|stack| - |selected|])
        decreases |stack| - |selected|
      {
        var newest := Newest(rest);
        SelectedOneMore(stack, |selected|, rest, newest);
        rest := rest - {newest};
        selected := selected + [newest];
      }
    }

    method FindMigration(version: Version) returns (migration: Option<Migration<S>>)
      ensures migration.Some? ==> migration.value in files && migration.value.version == version
      ensures migration.None? ==> forall m | m in files :: m.version != version
    {
      for i := 0 to |files|
        invariant forall k | 0 <= k < i :: files[k].version != version
      {
        if files[i].version == version {
          return Some(files[i]);
        }
      }
      migration := None;
    }

    /** One turn of the loop of `rollbackLast`. */
    method RollBackTop(version: Version, now: Time, fault: Fault) returns (reply: Reply<()>, ghost committed: bool)
      requires Valid() && stack != [] && stack[|stack| - 1] == version
      modifies this
      ensures Valid()
      ensures stack == if committed then old(stack)[..|old(stack)| - 1] else old(stack)
      ensures reply.Returned? <==> committed && fault.Fine?
      ensures committed <==> !fault.Refused? && IsLocal(files, version)
    {
      var migration := FindMigration(version);
      if migration.None? {
        return Threw("missing local migration files"), false;
      }
      DownIsPop(catalog, first, stack, rows, schema, version);
      reply, committed := ApplySqlWithBookkeeping(Down, migration.value, now, fault);
    }

    method RollBackEach(result: seq<Version>, now: Time, faults: nat -> Fault)
        returns (reply: Reply<()>, ghost popped: nat)
      requires Valid() && |result| <= |stack| && forall i | 0 <= i < |result| :: result[i] == stack[|stack| - 1 - i]
      modifies this
      ensures Valid()
      ensures popped <= |result| && stack == old(stack)[..|old(stack)| - popped]
      ensures reply.Returned? ==> popped == |result|
      ensures reply.Returned? <==> Undoable(files, result, faults, |result|)
    {
      ghost var whole := stack;
      assert whole[..|whole|] == whole;
      popped := 0;
      for i := 0 to |result|
        invariant Valid() && stack == whole[..|whole| - i] && popped == i
        invariant Undoable(files, result, faults, i)
      {
        TopIs(whole, i);
        UndoableOneMore(files, result, faults, i);
        ghost var committed;
        reply, committed := RollBackTop(result[i], now, faults(i));
        popped := if committed then i + 1 else i;
        if reply.Threw? {
          return;
        }
      }
      reply := Returned(());
    }

    /**
     `rollbackLast`: pops the last `steps` migrations, the newest first, and stops at the first
     that throws; `popped` counts a down script whose COMMIT took effect and threw.
     */
    method RollbackLast(steps: int, now: Time, faults: nat -> Fault)
        returns (reply: Reply<seq<Version>>, ghost popped: nat)
      requires Valid()
      modifies this
      ensures Valid()
      ensures popped <= |old(stack)| && stack == old(stack)[..|old(stack)| - popped]
      ensures steps < 1 ==> reply == Threw("steps must be >= 1") && popped == 0
      ensures reply.Returned? ==>
                steps >= 1 && popped == Min(steps, |old(stack)|) && reply.value == Reversed(Last(old(stack), popped))
      ensures steps >= 1 ==>
                var selected := Reversed(Last(old(stack), Min(steps, |old(stack)|)));
                reply.Returned? <==> Undoable(files, selected, faults, |selected|)
    {
      if steps < 1 {
        return Threw("steps must be >= 1"), 0;
      }
      var result := SelectLast(steps);
      LastReversed(stack, Min(steps, |stack|));
      var each;
      each, popped := RollBackEach(result, now, faults);
      reply := if each.Threw? then Threw(each.error) else Returned(result);
    }
  }

  // ----- status

  /**
   Once everything pending is recorded, nothing is pending: a second `migrateUp` applies nothing
   and skips every file.
   */
  lemma {:induction false} SecondUpAppliesNothing<S>(files: seq<Migration<S>>, applied: set<Version>)
    requires forall m | m in files :: m.version in applied
    ensures Pending(files, applied) == [] && |AlreadyApplied(files, applied)| == |files|
  {
    if files != [] {
      SecondUpAppliesNothing(files[1..], applied);
    }
  }

  /** The stack records exactly its members, so what is pending is what the stack lacks. */
  lemma {:induction false} RowsAreStack(rows: map<Version, Time>, stack: seq<Version>, v: Version)
    requires Records(rows, stack)
    ensures v in rows <==> v in stack
    decreases |stack|
  {
    if stack != [] {
      var top, rest := stack[|stack| - 1], stack[..|stack| - 1];
      RowsAreStack(rows - {top}, rest, v);
      assert stack == rest + [top];
    }
  }

  lemma {:induction false} PendingMembers<S>(files: seq<Migration<S>>, applied: set<Version>, v: Version)
    ensures v in Pending(files, applied) <==> v !in applied && exists m :: m in files && m.version == v
    ensures v in AlreadyApplied(files, applied) <==> v in applied && exists m :: m in files && m.version == v
  {
    if files != [] {
      PendingMembers(files[1..], applied, v);
      assert forall m :: m in files <==> m == files[0] || m in files[1..];
    }
  }

  /** After an up run that returned, the stack holds every local file. */
  lemma EverythingIsApplied<S>(files: seq<Migration<S>>, stack: seq<Version>,
      rows: map<Version, Time>, later: map<Version, Time>)
    requires Records(rows, stack) && Records(later, stack + Pending(files, rows.Keys))
    ensures Pending(files, later.Keys) == []
  {
    forall m | m in files ensures m.version in later.Keys {
      PendingMembers(files, rows.Keys, m.version);
      RowsAreStack(rows, stack, m.version);
      RowsAreStack(later, stack + Pending(files, rows.Keys), m.version);
    }
    SecondUpAppliesNothing(files, later.Keys);
  }
}
