/**
 * The desktop shell's window list: windows in opening order, each with a
 * stacking order `zIndex`, and a counter handing out the next, higher
 * `zIndex`. Opening an app that already has a window raises it instead.
 */
module Desktop {

  /** The first `zIndex` handed out. */
  const FirstZIndex: int := 10

  datatype Position = Position(x: int, y: int)

  /** A window; the React component it renders is not modelled. */
  datatype Window = Window(id: string, title: string, zIndex: int, initialPosition: Position)

  datatype Shell = Shell(windows: seq<Window>, nextZIndex: int)

  const Initial: Shell := Shell([], FirstZIndex)

  predicate Contains(ws: seq<Window>, id: string) {
    exists i :: 0 <= i < |ws| && ws[i].id == id
  }

  predicate DistinctIds(ws: seq<Window>) {
    forall i, j :: 0 <= i < j < |ws| ==> ws[i].id != ws[j].id
  }

  predicate DistinctZ(ws: seq<Window>) {
    forall i, j :: 0 <= i < j < |ws| ==> ws[i].zIndex != ws[j].zIndex
  }

  /**
   * The shell's invariant: one window per app, no two windows at the same
   * depth, and every `zIndex` between the first one handed out and the
   * counter (exclusive).
   */
  predicate Valid(s: Shell) {
    && DistinctIds(s.windows)
    && DistinctZ(s.windows)
    && FirstZIndex <= s.nextZIndex
    && forall i :: 0 <= i < |s.windows| ==> FirstZIndex <= s.windows[i].zIndex < s.nextZIndex
  }

  /** The window `id`, if any, moved to depth `z`; the others as they were. */
  function Raise(ws: seq<Window>, id: string, z: int): (r: seq<Window>)
    ensures |r| == |ws|
    ensures forall i :: 0 <= i < |ws| && ws[i].id != id ==> r[i] == ws[i]
    ensures forall i :: 0 <= i < |ws| && ws[i].id == id ==> r[i] == ws[i].(zIndex := z)
  {
    if ws == [] then []
    else [if ws[0].id == id then ws[0].(zIndex := z) else ws[0]] + Raise(ws[1..], id, z)
  }

  /** `bringToFront`: the window `id` gets the counter's depth, and the counter advances (even for an absent id). */
  function BringToFront(s: Shell, id: string): (r: Shell)
    ensures r.nextZIndex == s.nextZIndex + 1
    ensures |r.windows| == |s.windows|
    ensures forall i :: 0 <= i < |s.windows| && s.windows[i].id != id ==> r.windows[i] == s.windows[i]
    ensures forall i :: 0 <= i < |s.windows| && s.windows[i].id == id ==>
      r.windows[i] == s.windows[i].(zIndex := s.nextZIndex)
    ensures !Contains(s.windows, id) ==> r.windows == s.windows
  {
    Shell(Raise(s.windows, id, s.nextZIndex), s.nextZIndex + 1)
  }

  /** The windows other than `id`, in their original order. */
  function Without(ws: seq<Window>, id: string): (r: seq<Window>)
    ensures !Contains(r, id)
    ensures !Contains(ws, id) ==> r == ws
    ensures |r| <= |ws|
  {
    if ws == [] then []
    else if ws[0].id == id then Without(ws[1..], id)
    else [ws[0]] + Without(ws[1..], id)
  }

  /** Closing keeps exactly the windows of other apps. */
  lemma {:induction false} WithoutMembers(ws: seq<Window>, id: string, w: Window)
    ensures w in Without(ws, id) <==> w in ws && w.id != id
    decreases |ws|
  {
    if ws != [] {
      WithoutMembers(ws[1..], id, w);
      assert w in ws <==> w == ws[0] || w in ws[1..];
    }
  }

  /** `closeWindow`: drops the window `id`; the counter is untouched. */
  function CloseWindow(s: Shell, id: string): (r: Shell)
    ensures r.nextZIndex == s.nextZIndex
    ensures !Contains(r.windows, id)
    ensures !Contains(s.windows, id) ==> r == s
  {
    s.(windows := Without(s.windows, id))
  }

  /** Where the n-th window opens: 30 pixels down and right of the previous one. */
  function Cascade(n: nat): Position {
    Position(50 + n * 30, 50 + n * 30)
  }

  /**
   * `openWindow`: an app with a window is brought to the front; otherwise a
   * window is appended at the counter's depth and cascade position, and the
   * counter advances.
   */
  function OpenWindow(s: Shell, id: string, title: string): (r: Shell)
    ensures Contains(s.windows, id) ==> r == BringToFront(s, id)
    ensures !Contains(s.windows, id) ==>
      r.windows == s.windows + [Window(id, title, s.nextZIndex, Cascade(|s.windows|))]
    ensures r.nextZIndex == s.nextZIndex + 1
  {
    if Contains(s.windows, id) then BringToFront(s, id)
    else Shell(s.windows + [Window(id, title, s.nextZIndex, Cascade(|s.windows|))], s.nextZIndex + 1)
  }

  lemma InitialValid()
    ensures Valid(Initial)
  {
  }

  lemma BringToFrontPreservesValid(s: Shell, id: string)
    requires Valid(s)
    ensures Valid(BringToFront(s, id))
  {
    var r := BringToFront(s, id);
    forall i, j | 0 <= i < j < |r.windows|
      ensures r.windows[i].id != r.windows[j].id && r.windows[i].zIndex != r.windows[j].zIndex
    {
      assert r.windows[i].id == s.windows[i].id && r.windows[j].id == s.windows[j].id;
    }
  }

  /** After `bringToFront(id)` that window lies strictly above every other window. */
  lemma FrontIsTop(s: Shell, id: string, k: int)
    requires Valid(s) && 0 <= k < |s.windows| && s.windows[k].id == id
    ensures var r := BringToFront(s, id);
      forall i :: 0 <= i < |r.windows| && i != k ==> r.windows[i].zIndex < r.windows[k].zIndex
  {
  }

  lemma {:induction false} WithoutAppend(a: seq<Window>, b: seq<Window>, id: string)
    ensures Without(a + b, id) == Without(a, id) + Without(b, id)
    decreases |a|
  {
    if a != [] {
      assert (a + b)[0] == a[0];
      assert (a + b)[1..] == a[1..] + b;
      WithoutAppend(a[1..], b, id);
      if a[0].id != id {
        assert Without(a + b, id) == [a[0]] + (Without(a[1..], id) + Without(b, id));
        assert Without(a, id) == [a[0]] + Without(a[1..], id);
      }
    } else {
      assert a + b == b;
    }
  }

  /** With distinct ids, no window before or after index k has the id of window k. */
  lemma OthersLackId(ws: seq<Window>, k: int)
    requires DistinctIds(ws) && 0 <= k < |ws|
    ensures !Contains(ws[..k], ws[k].id) && !Contains(ws[k + 1..], ws[k].id)
  {
    var head, tail := ws[..k], ws[k + 1..];
    forall i | 0 <= i < |head| ensures head[i].id != ws[k].id {
      assert head[i] == ws[i];
    }
    forall i | 0 <= i < |tail| ensures tail[i].id != ws[k].id {
      assert tail[i] == ws[k + 1 + i];
    }
  }

  /** Removing the only window with the id from the middle of a list. */
  lemma SpliceWithout(head: seq<Window>, w: Window, tail: seq<Window>, id: string)
    requires !Contains(head, id) && !Contains(tail, id) && w.id == id
    ensures Without(head + [w] + tail, id) == head + tail
  {
    var hw := head + [w];
    WithoutAppend(hw, tail, id);
    WithoutAppend(head, [w], id);
    assert Without([w], id) == [] by {
      assert [w][1..] == [];
      assert Without([w], id) == Without([w][1..], id);
    }
    assert Without(hw, id) == head;
  }

  /** With distinct ids, closing the window at index k deletes exactly that entry. */
  lemma CloseRemovesOne(s: Shell, k: int)
    requires Valid(s) && 0 <= k < |s.windows|
    ensures CloseWindow(s, s.windows[k].id).windows == s.windows[..k] + s.windows[k + 1..]
  {
    var ws := s.windows;
    OthersLackId(ws, k);
    SpliceWithout(ws[..k], ws[k], ws[k + 1..], ws[k].id);
    assert ws == ws[..k] + [ws[k]] + ws[k + 1..];
  }

  /** Deleting one entry of a valid list keeps it valid. */
  lemma DeleteKeepsValid(s: Shell, k: int)
    requires Valid(s) && 0 <= k < |s.windows|
    ensures Valid(s.(windows := s.windows[..k] + s.windows[k + 1..]))
  {
    var ws := s.windows;
    var r := ws[..k] + ws[k + 1..];
    forall i, j | 0 <= i < j < |r|
      ensures r[i].id != r[j].id && r[i].zIndex != r[j].zIndex
    {
      var i', j' := if i < k then i else i + 1, if j < k then j else j + 1;
      assert r[i] == ws[i'] && r[j] == ws[j'] && i' < j';
    }
    forall i | 0 <= i < |r|
      ensures FirstZIndex <= r[i].zIndex < s.nextZIndex
    {
      assert r[i] == ws[if i < k then i else i + 1];
    }
  }

  lemma ClosePreservesValid(s: Shell, id: string)
    requires Valid(s)
    ensures Valid(CloseWindow(s, id))
  {
    if k :| 0 <= k < |s.windows| && s.windows[k].id == id {
      CloseRemovesOne(s, k);
      DeleteKeepsValid(s, k);
    }
  }

  lemma OpenPreservesValid(s: Shell, id: string, title: string)
    requires Valid(s)
    ensures Valid(OpenWindow(s, id, title))
  {
    if Contains(s.windows, id) {
      BringToFrontPreservesValid(s, id);
    }
  }

  /** Opening a new app and closing it again gives back the same windows. */
  lemma OpenThenClose(s: Shell, id: string, title: string)
    requires !Contains(s.windows, id)
    ensures CloseWindow(OpenWindow(s, id, title), id).windows == s.windows
    ensures CloseWindow(OpenWindow(s, id, title), id).nextZIndex == s.nextZIndex + 1
  {
    WithoutAppend(s.windows, [Window(id, title, s.nextZIndex, Cascade(|s.windows|))], id);
  }

  /** Window operations as the desktop issues them: app icons, close buttons, focus. */
  datatype Op = OpenOp(id: string, title: string) | CloseOp(id: string) | FocusOp(id: string)

  function Apply(s: Shell, op: Op): Shell {
    match op
    case OpenOp(id, title) => OpenWindow(s, id, title)
    case CloseOp(id) => CloseWindow(s, id)
    case FocusOp(id) => BringToFront(s, id)
  }

  function Run(s: Shell, ops: seq<Op>): Shell
    decreases |ops|
  {
    if ops == [] then s else Run(Apply(s, ops[0]), ops[1..])
  }

  /**
   * Under any sequence of open, close and focus operations ids stay
   * distinct, depths stay distinct and below the counter, and the counter
   * never goes down.
   */
  lemma {:induction false} RunPreservesValid(s: Shell, ops: seq<Op>)
    requires Valid(s)
    ensures Valid(Run(s, ops))
    ensures Run(s, ops).nextZIndex >= s.nextZIndex
    decreases |ops|
  {
    if ops != [] {
      match ops[0] {
        case OpenOp(id, title) => OpenPreservesValid(s, id, title);
        case CloseOp(id) => ClosePreservesValid(s, id);
        case FocusOp(id) => BringToFrontPreservesValid(s, id);
      }
      RunPreservesValid(Apply(s, ops[0]), ops[1..]);
    }
  }
}
