/** The active skin and its listeners (internal/config/styles.go, type Styles).
    Listener callbacks belong to other components, so a call
    `l.StylesChanged(s)` is recorded as a Notification appended to a trace. */
module Theme {
  import opened ColorResolution
  import Skin
  import Registry

  /** A listener is known by its identity only. */
  type ListenerId = nat

  type byte = bv8

  /** One call to a listener: who was called, with which Styles object, and
      the style tree that object held at the time. */
  datatype Notification = Notification(listener: ListenerId, receiver: Styles, skin: Skin.Style)

  /** The outcome of loading a skin; the error is passed on as the library gave it. */
  datatype Outcome = Pass | Fail(error: string)

  /** The outcome of reading a skin file: its bytes or the I/O error. */
  datatype ReadResult = Read(bytes: seq<byte>) | ReadFailed(error: string)

  /** What decoding a skin document onto the current tree leaves behind: the
      decoder writes into the tree in place, so it yields a tree even when it
      also reports a failure. */
  datatype Unmarshalled = Unmarshalled(skin: Skin.Style, failure: Option<string>)

  datatype Option<T> = None | Some(value: T)

  /** The colours written into the terminal library's global styles. */
  datatype RendererColors = RendererColors(
    primitiveBackground: TermColor, contrastBackground: TermColor, primaryText: TermColor,
    border: TermColor, focus: TermColor)

  /** The calls that notifying the listeners ls makes, in order: each listener
      receives s, holding skin. */
  function Notifications(ls: seq<ListenerId>, s: Styles, skin: Skin.Style): (r: seq<Notification>)
    ensures |r| == |ls|
    ensures forall i :: 0 <= i < |ls| ==> r[i] == Notification(ls[i], s, skin)
  {
    if ls == [] then [] else [Notification(ls[0], s, skin)] + Notifications(ls[1..], s, skin)
  }

  /** The listeners a trace of calls reached, in the order they were called. */
  function Notified(trace: seq<Notification>): (r: seq<ListenerId>)
    ensures |r| == |trace|
    ensures forall i :: 0 <= i < |trace| ==> r[i] == trace[i].listener
  {
    if trace == [] then [] else [trace[0].listener] + Notified(trace[1..])
  }

  /** Notifying reaches exactly the registered listeners, once per registration
      and in registration order, all with the same receiver and tree. */
  lemma NotifiesEachRegistration(ls: seq<ListenerId>, s: Styles, skin: Skin.Style)
    ensures Notified(Notifications(ls, s, skin)) == ls
    ensures forall n :: n in Notifications(ls, s, skin) ==> n.receiver == s && n.skin == skin
  {
  }

  /** Notifying a registry twice over is notifying each part in turn. */
  lemma NotificationsAppend(ls1: seq<ListenerId>, ls2: seq<ListenerId>, s: Styles, skin: Skin.Style)
    ensures Notifications(ls1 + ls2, s, skin) == Notifications(ls1, s, skin) + Notifications(ls2, s, skin)
  {
  }

  /** A listener registered once is not notified after it is removed. */
  lemma RemovedListenerNotNotified(ls: seq<ListenerId>, l: ListenerId, s: Styles, skin: Skin.Style)
    requires multiset(ls)[l] == 1
    ensures l !in Notified(Notifications(Registry.RemoveFirst(ls, l), s, skin))
  {
  }

  /** A listener registered twice is still notified, once, after one removal. */
  lemma TwiceRegisteredStillNotified(ls: seq<ListenerId>, l: ListenerId, s: Styles, skin: Skin.Style)
    requires multiset(ls)[l] == 2
    ensures multiset(Notified(Notifications(Registry.RemoveFirst(ls, l), s, skin)))[l] == 1
  {
    Registry.RemoveFirstCount(ls, l);
    NotifiesEachRegistration(Registry.RemoveFirst(ls, l), s, skin);
  }

  /** The active skin and the components listening for changes to it. */
  class Styles {
    var k9s: Skin.Style
    var listeners: seq<ListenerId>
    /** The listener calls made so far. */
    var notified: seq<Notification>

    /** A Styles holding the default skin and no listeners. */
    constructor ()
      ensures k9s == Skin.NewStyle() && k9s.Complete()
      ensures listeners == [] && notified == []
    {
      k9s := Skin.NewStyle();
      listeners := [];
      notified := [];
    }

    /** Goes back to the default skin; listeners are kept and not notified. */
    method Reset()
      modifies this
      ensures k9s == Skin.NewStyle() && k9s.Complete()
      ensures listeners == old(listeners) && notified == old(notified)
    {
      k9s := Skin.NewStyle();
    }

    /** Loads the default skin: the same as Reset, also without notifying. */
    method DefaultSkin()
      modifies this
      ensures k9s == Skin.NewStyle() && k9s.Complete()
      ensures listeners == old(listeners) && notified == old(notified)
    {
      k9s := Skin.NewStyle();
    }

    function Body(): Skin.Body
      reads this
    {
      k9s.body
    }

    function Frame(): Skin.Frame
      reads this
    {
      k9s.frame
    }

    function Crumb(): Skin.Crumb
      reads this
    {
      Frame().crumb
    }

    function Title(): Skin.Title
      reads this
    {
      Frame().title
    }

    function Charts(): Skin.Charts
      reads this
    {
      k9s.views.charts
    }

    function Table(): Skin.Table
      reads this
    {
      k9s.views.table
    }

    function Xray(): Skin.Xray
      reads this
    {
      k9s.views.xray
    }

    function Views(): Skin.Views
      reads this
    {
      k9s.views
    }

    /** The terminal colour of the body's foreground. */
    function FgColor(t: Terminal): TermColor
      reads this
    {
      Body().fgColor.Resolve(t)
    }

    /** The terminal colour of the body's background. */
    function BgColor(t: Terminal): TermColor
      reads this
    {
      Body().bgColor.Resolve(t)
    }

    /** The accessors are projections of the one active tree: the groups they
        yield are its sub-trees, and the body colours resolve from its body. */
    lemma AccessorsProjectTree(t: Terminal)
      ensures Skin.Style(Body(), Frame(), k9s.info, Views()) == k9s
      ensures Frame() == k9s.frame && Crumb() == k9s.frame.crumb && Title() == k9s.frame.title
      ensures Views() == k9s.views && Charts() == k9s.views.charts
      ensures Table() == k9s.views.table && Xray() == k9s.views.xray
      ensures FgColor(t) == k9s.body.fgColor.Resolve(t) && BgColor(t) == k9s.body.bgColor.Resolve(t)
    {
    }

    /** On the default skin every accessor yields the default group, and the
        body's colours resolve as their tokens written out would. */
    lemma DefaultAccessors(t: Terminal)
      requires k9s == Skin.NewStyle()
      ensures Body() == Skin.NewBody() && Frame() == Skin.NewFrame() && Views() == Skin.NewViews()
      ensures Crumb() == Skin.NewCrumb() && Title() == Skin.NewTitle()
      ensures Charts() == Skin.NewCharts() && Table() == Skin.NewTable() && Xray() == Skin.NewXray()
      ensures FgColor(t) == NewColor("cadetblue").Resolve(t)
      ensures BgColor(t) == NewColor("black").Resolve(t)
    {
    }

    /** Registers l at the end; a listener may be registered more than once. */
    method AddListener(l: ListenerId)
      modifies this
      ensures listeners == old(listeners) + [l]
      ensures k9s == old(k9s) && notified == old(notified)
    {
      listeners := listeners + [l];
    }

    /** Unregisters the first registration of l; nothing happens when l is not
        registered. */
    method RemoveListener(l: ListenerId)
      modifies this
      ensures listeners == Registry.RemoveFirst(old(listeners), l)
      ensures k9s == old(k9s) && notified == old(notified)
    {
      var victim := -1;
      var i := 0;
      while i < |listeners|
        invariant 0 <= i <= |listeners|
        invariant l !in listeners[..i]
        invariant victim == -1
      {
        if listeners[i] == l {
          victim := i;
          break;
        }
        i := i + 1;
      }
      if victim == -1 {
        assert listeners[..i] == listeners;
        return;
      }
      Registry.RemoveFirstIsSplice(listeners, l);
      assert victim == Registry.IndexOf(listeners, l);
      listeners := listeners[..victim] + listeners[victim + 1..];
    }

    /** Calls every registered listener once per registration, in order, with
        this object. */
    method FireStylesChanged()
      modifies this
      ensures notified == old(notified) + Notifications(listeners, this, k9s)
      ensures k9s == old(k9s) && listeners == old(listeners)
    {
      var i := 0;
      while i < |listeners|
        invariant 0 <= i <= |listeners|
        invariant k9s == old(k9s) && listeners == old(listeners)
        invariant notified == old(notified) + Notifications(listeners[..i], this, k9s)
      {
        notified := notified + [Notification(listeners[i], this, k9s)];
        i := i + 1;
      }
      assert listeners[..i] == listeners;
    }

    /** Loads a skin: read is what reading the skin file gave, decode is the
        document decoder. A read error returns before anything changes; a
        decode error returns with the tree as the decoder left it; listeners are
        notified only when both succeed. */
    method Load(read: ReadResult, decode: (seq<byte>, Skin.Style) -> Unmarshalled) returns (outcome: Outcome)
      modifies this
      ensures listeners == old(listeners)
      ensures read.ReadFailed? ==> outcome == Fail(read.error) && k9s == old(k9s)
      ensures read.Read? ==> k9s == decode(read.bytes, old(k9s)).skin
      ensures read.Read? && decode(read.bytes, old(k9s)).failure.Some? ==>
                outcome == Fail(decode(read.bytes, old(k9s)).failure.value)
      ensures read.Read? && decode(read.bytes, old(k9s)).failure.None? ==> outcome == Pass
      ensures outcome.Fail? ==> notified == old(notified)
      ensures outcome.Pass? ==>
                && read.Read? && decode(read.bytes, old(k9s)).failure.None?
                && notified == old(notified) + Notifications(listeners, this, k9s)
    {
      if read.ReadFailed? {
        return Fail(read.error);
      }
      var u := decode(read.bytes, k9s);
      k9s := u.skin;
      if u.failure.Some? {
        return Fail(u.failure.value);
      }
      FireStylesChanged();
      return Pass;
    }

    /** Hands the resolved body and border colours to the terminal library,
        then notifies every listener. */
    method Update(t: Terminal) returns (rc: RendererColors)
      modifies this
      ensures rc.primitiveBackground == rc.contrastBackground == BgColor(t)
      ensures rc.primaryText == FgColor(t)
      ensures rc.border == k9s.frame.border.fgColor.Resolve(t)
      ensures rc.focus == k9s.frame.border.focusColor.Resolve(t)
      ensures notified == old(notified) + Notifications(listeners, this, k9s)
      ensures k9s == old(k9s) && listeners == old(listeners)
    {
      rc := RendererColors(BgColor(t), BgColor(t), FgColor(t),
                           k9s.frame.border.fgColor.Resolve(t),
                           k9s.frame.border.focusColor.Resolve(t));
      FireStylesChanged();
    }
  }

  /** Registrations and removals, as a caller sees them through the
      contracts above: a duplicate stays registered after one removal. */
  method RegistrationScenario() returns (s: Styles)
    ensures s.listeners == [2, 1]
  {
    s := new Styles();
    s.AddListener(1);
    s.AddListener(2);
    s.AddListener(1);
    assert s.listeners == [1, 2, 1];
    s.RemoveListener(1);
    assert s.listeners == [1, 2, 1][1..];
    s.RemoveListener(7);
  }

  /** A notification round reaches the remaining registrations in order. */
  method NotificationScenario(s: Styles)
    requires s.listeners == [2, 1]
    modifies s
  {
    ghost var before := s.notified;
    s.FireStylesChanged();
    assert s.notified[|before|..] == Notifications([2, 1], s, s.k9s);
    NotifiesEachRegistration([2, 1], s, s.k9s);
    assert Notified(s.notified[|before|..]) == [2, 1];
  }

  /** Resetting twice leaves what resetting once does, and the renderer then
      receives the default body colours. */
  method ResetScenario(s: Styles, t: Terminal)
    modifies s
  {
    s.Reset();
    var once := s.k9s;
    s.Reset();
    assert s.k9s == once;
    var rc := s.Update(t);
    assert rc.primaryText == NewColor("cadetblue").Resolve(t);
  }
}
