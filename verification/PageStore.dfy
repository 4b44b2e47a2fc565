/**
 The stateful page and database store: task-database edits with batch undo and redo, and
 the deletion of a page with everything under it.
 */
module PageStore {
  import opened Options

  // ---------------------------------------------------------------- batches

  /** The content is opaque: an edit replaces it and takes the next revision. */
  datatype Database = Database(content: string, revision: nat)

  datatype Saved = Saved(database: string, before: Database)

  datatype Undone = Undone(database: string, before: Database, after: Database)

  /** Batch `n` is the source's `batch-db-n`. */
  datatype Store = Store(
    databases: map<string, Database>,
    batches: map<nat, Saved>,
    undone: map<nat, Undone>,
    changeCounter: nat)

  datatype Op = Edit(database: string, content: string) | Revert(batch: nat) | Redo(batch: nat)

  /** `{ ...version, revision: (current?.revision ?? version.revision) + 1 }` */
  function PutBack(databases: map<string, Database>, d: string, version: Database): map<string, Database> {
    databases[d := version.(revision := (if d in databases then databases[d].revision else version.revision) + 1)]
  }

  function Step(s: Store, op: Op): Store {
    match op
    case Edit(d, content) =>
      if d !in s.databases then s
      else
        var b := s.changeCounter + 1;
        s.(databases := s.databases[d := Database(content, s.databases[d].revision + 1)],
           changeCounter := b, batches := s.batches[b := Saved(d, s.databases[d])])
    case Revert(b) =>
      if b !in s.batches then s
      else
        var saved := s.batches[b];
        s.(databases := PutBack(s.databases, saved.database, saved.before), batches := s.batches - {b},
           undone := if saved.database in s.databases
                     then s.undone[b := Undone(saved.database, saved.before, s.databases[saved.database])]
                     else s.undone)
    case Redo(b) =>
      if b !in s.undone then s
      else
        var saved := s.undone[b];
        s.(databases := PutBack(s.databases, saved.database, saved.after), undone := s.undone - {b},
           batches := s.batches[b := Saved(saved.database, saved.before)])
  }

  function Run(s: Store, ops: seq<Op>): Store
    decreases |ops|
  {
    if ops == [] then s else Run(Step(s, ops[0]), ops[1..])
  }

  /** No batch can be both undone and redone, and new batches are new. */
  ghost predicate Inv(s: Store) {
    && s.batches.Keys !! s.undone.Keys
    && (forall b | b in s.batches :: b <= s.changeCounter && s.batches[b].database in s.databases)
    && (forall b | b in s.undone :: b <= s.changeCounter && s.undone[b].database in s.databases)
  }

  /** The database an operation works on, if it does anything. */
  ghost function Target(s: Store, op: Op): Option<string> {
    match op
    case Edit(d, _) => if d in s.databases then Some(d) else None
    case Revert(b) => if b in s.batches then Some(s.batches[b].database) else None
    case Redo(b) => if b in s.undone then Some(s.undone[b].database) else None
  }

  /** Every effective operation raises the revision of its database by one and touches no other. */
  lemma {:induction false} StepRaisesRevision(s: Store, op: Op)
    requires Inv(s)
    ensures Inv(Step(s, op))
    ensures Step(s, op).databases.Keys == s.databases.Keys
    ensures forall d | d in s.databases && Target(s, op) != Some(d) :: Step(s, op).databases[d] == s.databases[d]
    ensures Target(s, op).Some? ==>
              var d := Target(s, op).value;
              d in s.databases && Step(s, op).databases[d].revision == s.databases[d].revision + 1
    ensures Target(s, op).None? ==> Step(s, op) == s
  {
    var s' := Step(s, op);
    if Target(s, op).Some? {
      var d := Target(s, op).value;
      assert s'.databases.Keys == s.databases.Keys + {d};
    }
  }

  lemma {:induction false} EveryRunKeepsInv(s: Store, ops: seq<Op>)
    requires Inv(s)
    ensures Inv(Run(s, ops))
    ensures Run(s, ops).databases.Keys == s.databases.Keys
    ensures forall d | d in s.databases :: s.databases[d].revision <= Run(s, ops).databases[d].revision
    decreases |ops|
  {
    hide Step;
    if ops != [] {
      StepRaisesRevision(s, ops[0]);
      EveryRunKeepsInv(Step(s, ops[0]), ops[1..]);
    }
  }

  // ---------------------------------------------------------------- undo and redo along a timeline

  /**
   Database `d` has been through `contents`, batch `ids[i - 1]` having led from `contents[i - 1]`
   to `contents[i]`; the first `at` batches are applied, the later ones undone.
   */
  ghost predicate Timeline(s: Store, d: string, ids: seq<nat>, contents: seq<string>, at: nat) {
    && at < |contents| == |ids| + 1 && Distinct(ids)
    && d in s.databases && s.databases[d].content == contents[at]
    && (forall i | 1 <= i <= at :: AppliedAt(s, d, ids, contents, i))
    && (forall i | at < i < |contents| :: UndoneAt(s, d, ids, contents, i))
  }

  ghost predicate Distinct(ids: seq<nat>) {
    forall i, j | 0 <= i < j < |ids| :: ids[i] != ids[j]
  }

  /** Step `i` of the timeline is applied: its batch can be undone to what it found. */
  ghost predicate AppliedAt(s: Store, d: string, ids: seq<nat>, contents: seq<string>, i: nat) {
    && 1 <= i <= |ids| && i < |contents| && ids[i - 1] in s.batches
    && s.batches[ids[i - 1]].database == d && s.batches[ids[i - 1]].before.content == contents[i - 1]
  }

  /** Step `i` of the timeline is undone: its batch can be redone to what it had made. */
  ghost predicate UndoneAt(s: Store, d: string, ids: seq<nat>, contents: seq<string>, i: nat) {
    && 1 <= i <= |ids| && i < |contents| && ids[i - 1] in s.undone
    && s.undone[ids[i - 1]].database == d
    && s.undone[ids[i - 1]].before.content == contents[i - 1] && s.undone[ids[i - 1]].after.content == contents[i]
  }

  lemma {:induction false} EditExtendsTimeline(s: Store, d: string, ids: seq<nat>, contents: seq<string>, content: string)
    requires Inv(s) && Timeline(s, d, ids, contents, |ids|)
    ensures Timeline(Step(s, Edit(d, content)), d, ids + [s.changeCounter + 1], contents + [content], |ids| + 1)
  {
    var s', more, all := Step(s, Edit(d, content)), ids + [s.changeCounter + 1], contents + [content];
    forall i | 0 <= i < |ids| ensures ids[i] <= s.changeCounter {
      assert AppliedAt(s, d, ids, contents, i + 1);
    }
    forall i | 1 <= i <= |more| ensures AppliedAt(s', d, more, all, i) {
      if i <= |ids| { assert AppliedAt(s, d, ids, contents, i); }
    }
  }

  lemma {:induction false} UndoMovesBack(s: Store, d: string, ids: seq<nat>, contents: seq<string>, at: nat)
    requires Timeline(s, d, ids, contents, at) && at > 0
    ensures Timeline(Step(s, Revert(ids[at - 1])), d, ids, contents, at - 1)
  {
    var s' := Step(s, Revert(ids[at - 1]));
    assert AppliedAt(s, d, ids, contents, at);
    forall i | 1 <= i <= at - 1 ensures AppliedAt(s', d, ids, contents, i) {
      assert AppliedAt(s, d, ids, contents, i);
    }
    forall i | at - 1 < i < |contents| ensures UndoneAt(s', d, ids, contents, i) {
      if i > at { assert UndoneAt(s, d, ids, contents, i); }
    }
  }

  lemma {:induction false} RedoMovesOn(s: Store, d: string, ids: seq<nat>, contents: seq<string>, at: nat)
    requires Timeline(s, d, ids, contents, at) && at < |ids|
    ensures Timeline(Step(s, Redo(ids[at])), d, ids, contents, at + 1)
  {
    var s' := Step(s, Redo(ids[at]));
    assert UndoneAt(s, d, ids, contents, at + 1);
    forall i | 1 <= i <= at + 1 ensures AppliedAt(s', d, ids, contents, i) {
      if i <= at { assert AppliedAt(s, d, ids, contents, i); }
    }
    forall i | at + 1 < i < |contents| ensures UndoneAt(s', d, ids, contents, i) {
      assert UndoneAt(s, d, ids, contents, i);
    }
  }

  /** Operations on other databases leave the timeline alone. */
  lemma {:induction false} OthersKeepTimeline(s: Store, d: string, ids: seq<nat>, contents: seq<string>, at: nat, op: Op)
    requires Inv(s) && Timeline(s, d, ids, contents, at) && Target(s, op) != Some(d)
    ensures Timeline(Step(s, op), d, ids, contents, at)
  {
    var s' := Step(s, op);
    StepRaisesRevision(s, op);
    forall i | 1 <= i <= at ensures AppliedAt(s', d, ids, contents, i) {
      assert AppliedAt(s, d, ids, contents, i);
    }
    forall i | at < i < |contents| ensures UndoneAt(s', d, ids, contents, i) {
      assert UndoneAt(s, d, ids, contents, i);
    }
  }

  /** A press of undo or redo on the timeline, or anything at all on another database. */
  datatype Move = Back | On | Elsewhere(op: Op)

  ghost predicate Walks(s: Store, d: string, ids: seq<nat>, at: nat, moves: seq<Move>)
    decreases |moves|
  {
    moves != [] ==>
      match moves[0]
      case Back => 0 < at <= |ids| && Walks(Step(s, Revert(ids[at - 1])), d, ids, at - 1, moves[1..])
      case On => at < |ids| && Walks(Step(s, Redo(ids[at])), d, ids, at + 1, moves[1..])
      case Elsewhere(op) => Target(s, op) != Some(d) && Walks(Step(s, op), d, ids, at, moves[1..])
  }

  /** The store and the place on the timeline after the moves. */
  ghost function Walk(s: Store, d: string, ids: seq<nat>, at: nat, moves: seq<Move>): (Store, nat)
    requires Walks(s, d, ids, at, moves)
    decreases |moves|
  {
    if moves == [] then (s, at)
    else
      match moves[0]
      case Back => Walk(Step(s, Revert(ids[at - 1])), d, ids, at - 1, moves[1..])
      case On => Walk(Step(s, Redo(ids[at])), d, ids, at + 1, moves[1..])
      case Elsewhere(op) => Walk(Step(s, op), d, ids, at, moves[1..])
  }

  /** However long one goes back and forth, the content is the one the timeline has at that place. */
  lemma {:induction false} WalkFollowsTimeline(s: Store, d: string, ids: seq<nat>, contents: seq<string>, at: nat, moves: seq<Move>)
    requires Inv(s) && Timeline(s, d, ids, contents, at) && Walks(s, d, ids, at, moves)
    ensures var (s', at') := Walk(s, d, ids, at, moves);
            Inv(s') && Timeline(s', d, ids, contents, at')
    decreases |moves|
  {
    hide Inv, Timeline, Step;
    if moves != [] {
      match moves[0]
      case Back =>
        StepRaisesRevision(s, Revert(ids[at - 1]));
        UndoMovesBack(s, d, ids, contents, at);
        WalkFollowsTimeline(Step(s, Revert(ids[at - 1])), d, ids, contents, at - 1, moves[1..]);
      case On =>
        StepRaisesRevision(s, Redo(ids[at]));
        RedoMovesOn(s, d, ids, contents, at);
        WalkFollowsTimeline(Step(s, Redo(ids[at])), d, ids, contents, at + 1, moves[1..]);
      case Elsewhere(op) =>
        StepRaisesRevision(s, op);
        OthersKeepTimeline(s, d, ids, contents, at, op);
        WalkFollowsTimeline(Step(s, op), d, ids, contents, at, moves[1..]);
    }
  }

  // ---------------------------------------------------------------- edits among others

  ghost predicate IsEditOf(op: Op, d: string) {
    op.Edit? && op.database == d
  }

  /** Every operation on `d` is an edit; on other databases anything may happen in between. */
  ghost predicate OnlyEdits(s: Store, d: string, ops: seq<Op>)
    decreases |ops|
  {
    ops != [] ==> (IsEditOf(ops[0], d) || Target(s, ops[0]) != Some(d)) && OnlyEdits(Step(s, ops[0]), d, ops[1..])
  }

  /** The contents the edits of `d` gave it, and the batches they became. */
  ghost function EditedTo(d: string, ops: seq<Op>): seq<string> {
    if ops == [] then [] else (if IsEditOf(ops[0], d) then [ops[0].content] else []) + EditedTo(d, ops[1..])
  }

  ghost function EditIds(s: Store, d: string, ops: seq<Op>): seq<nat>
    decreases |ops|
  {
    if ops == [] then []
    else (if IsEditOf(ops[0], d) then [s.changeCounter + 1] else []) + EditIds(Step(s, ops[0]), d, ops[1..])
  }

  lemma {:induction false} EditsExtendTimeline(s: Store, d: string, ids: seq<nat>, contents: seq<string>, ops: seq<Op>)
    requires Inv(s) && Timeline(s, d, ids, contents, |ids|) && OnlyEdits(s, d, ops)
    ensures var more := ids + EditIds(s, d, ops);
            Timeline(Run(s, ops), d, more, contents + EditedTo(d, ops), |more|)
    decreases |ops|
  {
    if ops == [] {
      assert ids + [] == ids && contents + [] == contents;
    } else {
      var s' := Step(s, ops[0]);
      StepRaisesRevision(s, ops[0]);
      var id, content := [s.changeCounter + 1], if IsEditOf(ops[0], d) then [ops[0].content] else [];
      var laterIds, later := EditIds(s', d, ops[1..]), EditedTo(d, ops[1..]);
      assert EditIds(s, d, ops) == (if IsEditOf(ops[0], d) then id else []) + laterIds;
      assert EditedTo(d, ops) == content + later;
      hide Inv, Timeline, Step, EditIds, EditedTo;
      if IsEditOf(ops[0], d) {
        EditExtendsTimeline(s, d, ids, contents, ops[0].content);
        EditsExtendTimeline(s', d, ids + id, contents + content, ops[1..]);
        assert (ids + id) + laterIds == ids + (id + laterIds);
        assert (contents + content) + later == contents + (content + later);
      } else {
        OthersKeepTimeline(s, d, ids, contents, |ids|, ops[0]);
        EditsExtendTimeline(s', d, ids, contents, ops[1..]);
        assert [] + laterIds == laterIds && [] + later == later;
      }
    }
  }

  lemma {:induction false} EditsMakeTimeline(s: Store, d: string, ops: seq<Op>)
    requires Inv(s) && d in s.databases && OnlyEdits(s, d, ops)
    ensures var ids := EditIds(s, d, ops);
            Timeline(Run(s, ops), d, ids, [s.databases[d].content] + EditedTo(d, ops), |ids|)
  {
    var ids := EditIds(s, d, ops);
    assert Timeline(s, d, [], [s.databases[d].content], 0);
    EditsExtendTimeline(s, d, [], [s.databases[d].content], ops);
    assert [] + ids == ids;
  }

  function Repeat(m: Move, n: nat): seq<Move> {
    if n == 0 then [] else [m] + Repeat(m, n - 1)
  }

  lemma {:induction false} BackToStart(s: Store, d: string, ids: seq<nat>, at: nat)
    requires at <= |ids|
    ensures Walks(s, d, ids, at, Repeat(Back, at)) && Walk(s, d, ids, at, Repeat(Back, at)).1 == 0
    decreases at
  {
    hide Step;
    if at > 0 {
      assert Repeat(Back, at)[1..] == Repeat(Back, at - 1);
      BackToStart(Step(s, Revert(ids[at - 1])), d, ids, at - 1);
    }
  }

  lemma {:induction false} OnToEnd(s: Store, d: string, ids: seq<nat>, at: nat)
    requires at <= |ids|
    ensures var moves := Repeat(On, |ids| - at);
            Walks(s, d, ids, at, moves) && Walk(s, d, ids, at, moves).1 == |ids|
    decreases |ids| - at
  {
    hide Step;
    if at < |ids| {
      assert Repeat(On, |ids| - at)[1..] == Repeat(On, |ids| - (at + 1));
      OnToEnd(Step(s, Redo(ids[at])), d, ids, at + 1);
    }
  }

  /**
   Edits of a database, whatever happens to others in between, undone newest first restore the
   original; redone oldest first they restore the final content.
   */
  lemma {:induction false} UndoAllThenRedoAll(s: Store, d: string, ops: seq<Op>)
    requires Inv(s) && d in s.databases && OnlyEdits(s, d, ops)
    ensures var ids, edited := EditIds(s, d, ops), Run(s, ops);
            && Walks(edited, d, ids, |ids|, Repeat(Back, |ids|))
            && var back := Walk(edited, d, ids, |ids|, Repeat(Back, |ids|)).0;
            && Walks(back, d, ids, 0, Repeat(On, |ids|))
            && var again := Walk(back, d, ids, 0, Repeat(On, |ids|)).0;
            && d in back.databases && back.databases[d].content == s.databases[d].content
            && d in edited.databases && d in again.databases
            && again.databases[d].content == edited.databases[d].content
  {
    hide Step, Walks, Walk, EditIds, EditedTo, OnlyEdits;
    var ids, edited := EditIds(s, d, ops), Run(s, ops);
    var all := [s.databases[d].content] + EditedTo(d, ops);
    EditsMakeTimeline(s, d, ops);
    EveryRunKeepsInv(s, ops);
    BackToStart(edited, d, ids, |ids|);
    WalkFollowsTimeline(edited, d, ids, all, |ids|, Repeat(Back, |ids|));
    var back := Walk(edited, d, ids, |ids|, Repeat(Back, |ids|)).0;
    OnToEnd(back, d, ids, 0);
    WalkFollowsTimeline(back, d, ids, all, 0, Repeat(On, |ids|));
  }

  // ---------------------------------------------------------------- undo in any order

  ghost predicate AllApplied(s: Store, d: string, batches: seq<nat>) {
    && (forall i | 0 <= i < |batches| :: batches[i] in s.batches && s.batches[batches[i]].database == d)
    && (forall i, j | 0 <= i < j < |batches| :: batches[i] != batches[j])
  }

  function Reverts(batches: seq<nat>): seq<Op> {
    if batches == [] then [] else [Revert(batches[0])] + Reverts(batches[1..])
  }

  /** Batches undone in any order leave the content the last of them had found. */
  lemma {:induction false} UndoInAnyOrder(s: Store, d: string, batches: seq<nat>)
    requires batches != [] && AllApplied(s, d, batches)
    ensures var s' := Run(s, Reverts(batches));
            d in s'.databases && s'.databases[d].content == s.batches[batches[|batches| - 1]].before.content
    decreases |batches|
  {
    var first, rest := batches[0], batches[1..];
    var s1 := Step(s, Revert(first));
    assert Reverts(batches)[1..] == Reverts(rest);
    if rest != [] {
      forall i | 0 <= i < |rest| ensures rest[i] in s1.batches && s1.batches[rest[i]] == s.batches[rest[i]] {
        assert rest[i] == batches[i + 1];
      }
      UndoInAnyOrder(s1, d, rest);
      assert rest[|rest| - 1] == batches[|batches| - 1];
    }
  }

  /** So undoing everything restores a content exactly when the batch undone last had found it. */
  lemma {:induction false} UndoRestoresIff(s: Store, d: string, batches: seq<nat>, original: string)
    requires batches != [] && AllApplied(s, d, batches)
    ensures var s' := Run(s, Reverts(batches));
            && d in s'.databases
            && (s'.databases[d].content == original
                <==> s.batches[batches[|batches| - 1]].before.content == original)
  {
    UndoInAnyOrder(s, d, batches);
  }

  // ---------------------------------------------------------------- pages

  datatype Page = Page(parent: Option<string>, body: string)

  /** `page.parentId` as the loop tests it: an empty identifier counts as no parent. */
  ghost predicate ChildOf(pages: map<string, Page>, p: string, parent: string) {
    p in pages && pages[p].parent == Some(parent) && parent != ""
  }

  ghost predicate Chain(pages: map<string, Page>, path: seq<string>) {
    path != [] && forall i | 0 <= i < |path| - 1 :: ChildOf(pages, path[i], path[i + 1])
  }

  /** The page itself or, through any chain of parents, a page under it. */
  ghost predicate Under(pages: map<string, Page>, p: string, root: string) {
    exists path :: Chain(pages, path) && path[0] == p && path[|path| - 1] == root
  }

  lemma {:induction false} UnderRoot(pages: map<string, Page>, root: string)
    ensures Under(pages, root, root)
  {
    assert Chain(pages, [root]);
  }

  lemma {:induction false} UnderChild(pages: map<string, Page>, p: string, parent: string, root: string)
    requires ChildOf(pages, p, parent) && Under(pages, parent, root)
    ensures Under(pages, p, root)
  {
    var path :| Chain(pages, path) && path[0] == parent && path[|path| - 1] == root;
    var longer := [p] + path;
    forall i | 0 <= i < |longer| - 1 ensures ChildOf(pages, longer[i], longer[i + 1]) {
      if i > 0 { assert ChildOf(pages, path[i - 1], path[i]); }
    }
    assert Chain(pages, longer);
  }

  ghost predicate Closed(pages: map<string, Page>, removed: set<string>) {
    forall p, q | ChildOf(pages, p, q) && q in removed :: p in removed
  }

  lemma {:induction false} ChainStaysInside(pages: map<string, Page>, removed: set<string>, path: seq<string>)
    requires Closed(pages, removed) && Chain(pages, path) && path[|path| - 1] in removed
    ensures path[0] in removed
    decreases |path|
  {
    if |path| > 1 {
      assert ChildOf(pages, path[0], path[1]);
      forall i | 0 <= i < |path[1..]| - 1 ensures ChildOf(pages, path[1..][i], path[1..][i + 1]) {
        assert ChildOf(pages, path[i + 1], path[i + 2]);
      }
      ChainStaysInside(pages, removed, path[1..]);
    }
  }

  /** A closed set of pages under the root, with the root in it, is all of them. */
  lemma {:induction false} ClosedIsUnder(pages: map<string, Page>, removed: set<string>, root: string)
    requires Closed(pages, removed) && root in removed && forall p | p in removed :: Under(pages, p, root)
    ensures forall p :: p in removed <==> Under(pages, p, root)
  {
    forall p | Under(pages, p, root) ensures p in removed {
      var path :| Chain(pages, path) && path[0] == p && path[|path| - 1] == root;
      ChainStaysInside(pages, removed, path);
    }
  }

  /** What deletion leaves. */
  ghost function Survivors(pages: map<string, Page>, root: string): map<string, Page> {
    map p | p in pages && !Under(pages, p, root) :: pages[p]
  }

  lemma {:induction false} NoSurvivorPointsAtRemoved(pages: map<string, Page>, root: string)
    ensures forall p, q | ChildOf(Survivors(pages, root), p, q) :: !Under(pages, q, root)
    ensures root !in Survivors(pages, root)
  {
    forall p, q | ChildOf(Survivors(pages, root), p, q) ensures !Under(pages, q, root) {
      assert ChildOf(pages, p, q);
      if Under(pages, q, root) { UnderChild(pages, p, q, root); }
    }
    UnderRoot(pages, root);
  }

  // ---------------------------------------------------------------- the controller

  class PagesController {
    var databases: map<string, Database>
    var batches: map<nat, Saved>
    var undone: map<nat, Undone>
    var changeCounter: nat
    var pages: map<string, Page>
    /** The keys of `pages` in the map's iteration order. */
    var order: seq<string>

    ghost function View(): Store
      reads this
    {
      Store(databases, batches, undone, changeCounter)
    }

    ghost predicate Valid()
      reads this
    {
      Inv(View()) && forall p :: p in order <==> p in pages
    }

    constructor ()
      ensures Valid() && View() == Store(map[], map[], map[], 0) && pages == map[]
    {
      databases, batches, undone, changeCounter := map[], map[], map[], 0;
      pages, order := map[], [];
    }

    method DeletePage(id: string)
      requires Valid()
      modifies this`pages, this`order
      ensures Valid() && pages == Survivors(old(pages), id)
    {
      hide Under;
      var removed := {id};
      var added := true;
      UnderRoot(pages, id);
      while added
        invariant pages == old(pages) && order == old(order)
        invariant id in removed && forall p | p in removed :: Under(pages, p, id)
        invariant !added ==> Closed(pages, removed)
        decreases pages.Keys - removed, added
      {
        added := false;
        ghost var start := removed;
        for i := 0 to |order|
          invariant pages == old(pages) && order == old(order)
          invariant start <= removed && (forall p | p in removed :: Under(pages, p, id))
          invariant added <==> removed != start
          invariant added ==> pages.Keys - removed < pages.Keys - start
          invariant !added ==> forall p, q | ChildOf(pages, p, q) && q in removed && p in order[..i] :: p in removed
        {
          var candidate := order[i];
          assert candidate in order;
          var parent := pages[candidate].parent;
          if parent.Some? && parent.value != "" && parent.value in removed && candidate !in removed {
            UnderChild(pages, candidate, parent.value, id);
            assert candidate in pages.Keys - start;
            removed := removed + {candidate};
            added := true;
          }
          assert order[..i + 1] == order[..i] + [candidate];
        }
        assert order[..|order|] == order;
      }
      ClosedIsUnder(pages, removed, id);
      pages := pages - removed;
      order := Keep(order, removed);
    }

    method RevertBatch(batch: nat) returns (found: bool)
      requires Valid()
      modifies this`databases, this`batches, this`undone
      ensures Valid() && View() == Step(old(View()), Revert(batch))
      ensures found <==> batch in old(batches)
    {
      StepRaisesRevision(View(), Revert(batch));
      found := batch in batches;
      if !found { return; }
      var saved := batches[batch];
      var d := saved.database;
      var revision := saved.before.revision + 1;
      if d in databases {
        undone := undone[batch := Undone(d, saved.before, databases[d])];
        revision := databases[d].revision + 1;
      }
      databases := databases[d := saved.before.(revision := revision)];
      batches := batches - {batch};
    }

    method RedoBatch(batch: nat) returns (found: bool)
      requires Valid()
      modifies this`databases, this`batches, this`undone
      ensures Valid() && View() == Step(old(View()), Redo(batch))
      ensures found <==> batch in old(undone)
    {
      StepRaisesRevision(View(), Redo(batch));
      found := batch in undone;
      if !found { return; }
      var saved := undone[batch];
      var d := saved.database;
      batches := batches[batch := Saved(d, saved.before)];
      var revision := (if d in databases then databases[d].revision else saved.after.revision) + 1;
      databases := databases[d := saved.after.(revision := revision)];
      undone := undone - {batch};
    }

    method EditDatabase(d: string, content: string) returns (found: bool)
      requires Valid()
      modifies this`databases, this`batches, this`changeCounter
      ensures Valid() && View() == Step(old(View()), Edit(d, content))
      ensures found <==> d in old(databases)
    {
      StepRaisesRevision(View(), Edit(d, content));
      found := d in databases;
      if !found { return; }
      var database := databases[d];
      databases := databases[d := Database(content, database.revision + 1)];
      changeCounter := changeCounter + 1;
      batches := batches[changeCounter := Saved(d, database)];
    }
  }

  function Keep(order: seq<string>, removed: set<string>): (r: seq<string>)
    ensures forall p :: p in r <==> p in order && p !in removed
  {
    if order == [] then []
    else
      assert order == [order[0]] + order[1..];
      (if order[0] in removed then [] else [order[0]]) + Keep(order[1..], removed)
  }
}
