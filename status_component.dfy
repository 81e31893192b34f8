/** The stateful badge: its one flag, the two actions that change it, and
    what a sequence of clicks does to it. */
module StatusComponent {
  import opened StatusTypes
  import opened StatusView

  /** The flag after a node's handler runs: Toggle negates it, Close clears it. */
  function Step(detailsVisible: bool, h: Handler): (r: bool)
    ensures r <==> h == Toggle && !detailsVisible
  {
    match h
    case Toggle => !detailsVisible
    case Close => false
  }

  /** The flag after running the handlers of hs, first to last. */
  function Replay(detailsVisible: bool, hs: seq<Handler>): bool
    decreases |hs|
  {
    if hs == [] then detailsVisible else Replay(Step(detailsVisible, hs[0]), hs[1..])
  }

  function Odd(n: nat): bool {
    n % 2 == 1
  }

  /** The number of Toggle handlers in hs. */
  function ToggleCount(hs: seq<Handler>): (n: nat)
    ensures n <= |hs|
  {
    if hs == [] then 0 else (if hs[0] == Toggle then 1 else 0) + ToggleCount(hs[1..])
  }

  /** The number of Toggle handlers after the last Close in hs (all of them
      when there is no Close). */
  function TrailingToggles(hs: seq<Handler>): (n: nat)
    ensures n <= |hs|
  {
    if hs == [] then 0
    else if hs[|hs| - 1] == Close then 0
    else 1 + TrailingToggles(hs[..|hs| - 1])
  }

  /** Toggling twice restores the flag. */
  lemma ToggleInvolutive(detailsVisible: bool)
    ensures Step(Step(detailsVisible, Toggle), Toggle) == detailsVisible
  {
  }

  /** Close hides the details from either state, and closing again changes nothing. */
  lemma CloseIdempotent(detailsVisible: bool)
    ensures !Step(detailsVisible, Close)
    ensures Step(Step(detailsVisible, Close), Close) == Step(detailsVisible, Close)
  {
  }

  /** Running a + b is running a, then b. */
  lemma {:induction false} ReplayAppend(detailsVisible: bool, a: seq<Handler>, b: seq<Handler>)
    ensures Replay(detailsVisible, a + b) == Replay(Replay(detailsVisible, a), b)
    decreases |a|
  {
    if a == [] {
      assert a + b == b;
    } else {
      assert (a + b)[0] == a[0];
      assert (a + b)[1..] == a[1..] + b;
      ReplayAppend(Step(detailsVisible, a[0]), a[1..], b);
    }
  }

  /** With only root clicks, the flag is the initial one flipped once per
      click: it tracks the parity of the number of toggles. */
  lemma {:induction false} ToggleParity(detailsVisible: bool, hs: seq<Handler>)
    requires Close !in hs
    ensures ToggleCount(hs) == |hs|
    ensures Replay(detailsVisible, hs) == (detailsVisible != Odd(ToggleCount(hs)))
    decreases |hs|
  {
    if hs != [] {
      assert hs[0] == Toggle;
      assert Close !in hs[1..] by {
        forall i | 0 <= i < |hs[1..]| ensures hs[1..][i] != Close {
          assert hs[1..][i] == hs[i + 1];
        }
      }
      ToggleParity(!detailsVisible, hs[1..]);
    }
  }

  /** The flag after any sequence of clicks: the parity of the toggles after
      the last close, starting from false when there was a close and from the
      initial flag otherwise. */
  lemma {:induction false} ReplayCharacterised(detailsVisible: bool, hs: seq<Handler>)
    ensures Replay(detailsVisible, hs)
      == ((if Close in hs then false else detailsVisible) != Odd(TrailingToggles(hs)))
    decreases |hs|
  {
    if hs != [] {
      var init, last := hs[..|hs| - 1], hs[|hs| - 1];
      assert hs == init + [last];
      ReplayAppend(detailsVisible, init, [last]);
      ReplayCharacterised(detailsVisible, init);
      assert Close in hs <==> Close in init || last == Close;
    }
  }

  /** Without detail information no sequence of clicks ever yields an info
      box, yet each root click still flips the flag. */
  lemma NoInfoNeverPanel(props: StatusProps, hs: seq<Handler>)
    requires props.additionalInfo.None?
    ensures RenderStatus(props, Replay(false, hs)).infoBox.None?
    ensures Replay(false, hs + [Toggle]) == !Replay(false, hs)
  {
    ReplayAppend(false, hs, [Toggle]);
  }

  /** The handlers a render attaches do what they promise: the root's
      negates the flag, the box's (whenever there is a box) clears it. */
  lemma RenderedHandlers(props: StatusProps, detailsVisible: bool)
    ensures
      var v := RenderStatus(props, detailsVisible);
      && v.root.onClick.Some? && Step(detailsVisible, v.root.onClick.value) == !detailsVisible
      && (v.infoBox.Some? ==>
            v.infoBox.value.onClick.Some? && !Step(detailsVisible, v.infoBox.value.onClick.value))
  {
  }

  /** The badge component: its props, fixed for the instance, and the one
      mutable field it owns. */
  class MStatus {
    const props: StatusProps
    var detailsVisible: bool

    /** A fresh badge starts with its details hidden. */
    constructor (props: StatusProps)
      ensures this.props == props
      ensures !detailsVisible
    {
      this.props := props;
      detailsVisible := false;
    }

    method ToggleDetailsVisibility()
      modifies this
      ensures detailsVisible == !old(detailsVisible)
    {
      detailsVisible := !detailsVisible;
    }

    method CloseDetails()
      modifies this
      ensures !detailsVisible
    {
      detailsVisible := false;
    }

    /** Running a rendered node's click handler: Toggle is the root's
        `() => this.toggleDetailsVisibility()`, Close the box's
        `() => this.closeDetails()`. */
    method Fire(h: Handler)
      modifies this
      ensures detailsVisible == Step(old(detailsVisible), h)
    {
      match h
      case Toggle => ToggleDetailsVisibility();
      case Close => CloseDetails();
    }

    /** The view for the current props and state. */
    function Render(): (v: View)
      reads this
      ensures v.infoBox.Some? ==> (v.infoBox.value.visible <==> detailsVisible)
      ensures v == RenderStatus(props, detailsVisible)
    {
      RenderStatus(props, detailsVisible)
    }
  }

  /** A badge with detail information: hidden at first, shown by a root
      click, hidden again by a click on the box. */
  method ServerDownScenario() {
    var info := InfoType("5xx spike", Some("Error rate 40% since 10:02"));
    var badge := new MStatus(StatusProps("SERVER DOWN", Some(Danger), Some(info), None, map[]));
    var v := badge.Render();
    assert v.root.content.hint == Some(HINT_TEXT);
    assert v.infoBox.Some? && !v.infoBox.value.visible;
    badge.Fire(v.root.onClick.value);
    v := badge.Render();
    assert v.infoBox.value.visible && v.infoBox.value.heading == "SERVER DOWN";
    assert v.infoBox.value.shortText == "5xx spike";
    assert v.infoBox.value.fullText == Some("Error rate 40% since 10:02");
    assert v.infoBox.value.color == ColorMap(Danger);
    badge.Fire(v.infoBox.value.onClick.value);
    v := badge.Render();
    assert v.infoBox.Some? && !v.infoBox.value.visible;
  }

  /** A badge without detail information: no hint, no pointer, no box, and
      a root click flips the flag all the same. */
  method AllGoodScenario() {
    var badge := new MStatus(StatusProps("ALL GOOD", Some(Fine), None, None, map[]));
    var v := badge.Render();
    assert v.root.color == ColorMap(Fine) && !v.root.pointer;
    assert v.root.content.hint.None? && v.infoBox.None?;
    badge.Fire(v.root.onClick.value);
    assert badge.detailsVisible;
    v := badge.Render();
    assert v.infoBox.None?;
  }
}
