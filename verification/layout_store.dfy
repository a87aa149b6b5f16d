/**
 The layout store (`src/stores/layout.ts`): whether the sidebar is open,
 persisted under `sidebarOpen` as the string `String(b)`. Only the exact
 string `"false"` restores a closed sidebar; anything else, including a
 missing key, restores an open one.
 */
module LayoutStore {
  import opened Values
  import opened KeyValue

  /** The in-memory flag together with the storage it writes through to. */
  datatype Layout = Layout(isSidebarOpen: bool, storage: Storage)

  datatype LayoutOp = ToggleOp | SetOpenOp(open: bool)

  /** JavaScript `String(b)` on a boolean. */
  function BoolString(b: bool): string {
    if b then "true" else "false"
  }

  /** The flag a store created from storage `s` starts with. */
  function Init(s: Storage): (open: bool)
    ensures !open <==> GetItem(s, SidebarKey) == Some("false")
  {
    !(GetItem(s, SidebarKey) == Some("false"))
  }

  function ToggleSidebar(l: Layout): (r: Layout)
    ensures r.isSidebarOpen == !l.isSidebarOpen
    ensures GetItem(r.storage, SidebarKey) == Some(BoolString(r.isSidebarOpen))
    ensures AgreeOutside(r.storage, l.storage, {SidebarKey})
  {
    var open := !l.isSidebarOpen;
    Layout(open, SetItem(l.storage, SidebarKey, BoolString(open)))
  }

  function SetSidebarOpen(l: Layout, open: bool): (r: Layout)
    ensures r.isSidebarOpen == open
    ensures GetItem(r.storage, SidebarKey) == Some(BoolString(open))
    ensures AgreeOutside(r.storage, l.storage, {SidebarKey})
  {
    Layout(open, SetItem(l.storage, SidebarKey, BoolString(open)))
  }

  function Apply(l: Layout, op: LayoutOp): Layout {
    match op
    case ToggleOp => ToggleSidebar(l)
    case SetOpenOp(b) => SetSidebarOpen(l, b)
  }

  function ApplyAll(l: Layout, ops: seq<LayoutOp>): Layout
    decreases |ops|
  {
    if |ops| == 0 then l else ApplyAll(Apply(l, ops[0]), ops[1..])
  }

  /** The stored value is one that `String(b)` produces, and reading it back gives the in-memory flag. */
  predicate Persisted(l: Layout) {
    && GetItem(l.storage, SidebarKey) in {Some("true"), Some("false")}
    && Init(l.storage) == l.isSidebarOpen
  }

  /** Reading back what `String(b)` wrote yields `b`. */
  lemma BoolStringRoundTrip(s: Storage, b: bool)
    ensures Init(SetItem(s, SidebarKey, BoolString(b))) == b
  {
  }

  lemma ToggleTwiceRestores(l: Layout)
    ensures ToggleSidebar(ToggleSidebar(l)).isSidebarOpen == l.isSidebarOpen
    ensures Init(ToggleSidebar(ToggleSidebar(l)).storage) == l.isSidebarOpen
  {
  }

  lemma SetSidebarOpenIdempotent(l: Layout, open: bool)
    ensures SetSidebarOpen(SetSidebarOpen(l, open), open) == SetSidebarOpen(l, open)
  {
  }

  /** After any one mutation, whatever the previous state, a reload restores the current flag. */
  lemma ApplyPersists(l: Layout, op: LayoutOp)
    ensures Persisted(Apply(l, op))
  {
  }

  /**
   After any non-empty sequence of mutations the stored value is `"true"` or
   `"false"`, a reload restores the current flag, and no other key has changed.
   */
  lemma {:induction false} ApplyAllPersists(l: Layout, ops: seq<LayoutOp>)
    requires |ops| > 0
    ensures Persisted(ApplyAll(l, ops))
    ensures AgreeOutside(ApplyAll(l, ops).storage, l.storage, {SidebarKey})
    decreases |ops|
  {
    var next := Apply(l, ops[0]);
    assert AgreeOutside(next.storage, l.storage, {SidebarKey});
    if |ops| == 1 {
      ApplyPersists(l, ops[0]);
      assert ApplyAll(next, ops[1..]) == next;
    } else {
      ApplyAllPersists(next, ops[1..]);
    }
  }
}
