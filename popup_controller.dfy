/** The popup controller as the object it is: a class whose methods update its
    fields and the page body in place, step by step as the controller does.
    Every method is specified by the function of the same name in PopupSpec
    applied to the state before the call, and the entry points keep the state
    invariant PopupSpec.Inv. */
module PopupController {
  import opened Dom
  import opened PopupSpec

  class Popup {
    /** The element the controller is attached to, the elements inside it in
        document order, and its data attributes. */
    const element: Element
    const descendants: seq<Element>
    const attrs: DataAttrs
    /** The page whose body the scroll lock changes. */
    const page: Page

    var open: bool
    /** The portal destination for the dialog. */
    var wrapperTarget: Option<Portal>
    var url: Option<string>
    var toggleClass: string
    var backgroundId: string
    var backgroundHtml: BackgroundHtml
    var modalSize: Option<string>
    var heading: Option<string>
    var popupOpener: Option<Element>
    var scrollPosition: int
    /** The `modal:closed` events dispatched on the opener, oldest first. */
    ghost var notifications: seq<Notification>
    /** The URLs of the content requests issued, oldest first. */
    ghost var fetches: seq<Option<string>>

    function Mount(): Host
    {
      Host(element, descendants, attrs)
    }

    ghost function Configuration(): Config
      reads this
    {
      Config(url, toggleClass, backgroundId, backgroundHtml, modalSize, heading, popupOpener)
    }

    ghost function Model(): State
      reads this, page
    {
      State(open, wrapperTarget, Configuration(), page.Snapshot(), scrollPosition, notifications, fetches)
    }

    /** PopupSpec.Inv of Model(), read off the fields it constrains. */
    ghost predicate Valid()
      reads this`open, this`wrapperTarget, this`scrollPosition, page
    {
      Lifecycle(open, wrapperTarget, page.Snapshot(), scrollPosition)
    }

    /** The component host attaches a controller to `element` on `page`. */
    constructor (element: Element, descendants: seq<Element>, attrs: DataAttrs, page: Page)
      ensures this.element == element && this.descendants == descendants
      ensures this.attrs == attrs && this.page == page
      ensures Model() == Init(page.Snapshot())
      ensures Valid()
    {
      this.element := element;
      this.descendants := descendants;
      this.attrs := attrs;
      this.page := page;
      open := false;
      wrapperTarget := None;
      url, toggleClass, backgroundId, backgroundHtml := None, "", "", Unset;
      modalSize, heading, popupOpener := None, None, None;
      scrollPosition := 0;
      notifications := [];
      fetches := [];
    }

    /** Reads the configuration; reports whether it threw on a missing opener.
        The values are worked out in locals and stored together; a throw at the
        heading leaves every field but the heading already stored. Only the
        configuration fields change, so Valid() is kept by framing. */
    method Connect() returns (threw: bool)
      modifies this`url, this`toggleClass, this`backgroundId, this`backgroundHtml, this`modalSize, this`popupOpener, this`heading
      ensures Connection(Configuration(), threw) == PopupSpec.Connect(old(Configuration()), Mount())
    {
      var u := attrs.url;
      var shown := OrElse(attrs.showClass, DefaultToggleClass);
      var bgId := OrElse(attrs.backgroundId, DefaultBackgroundId);
      var bgHtml := if Truthy(attrs.backgroundHtml) then Configured(attrs.backgroundHtml.value) else DefaultOverlay(bgId);

      // the element itself if it carries the open action, else the first
      // descendant matching [data-action*="popup#openModal"]
      var opener := ResolveOpener(Mount());

      // an anchor opener supplies the url when none is configured
      if opener.Some? && opener.value.tagName == "A" && !Truthy(u) {
        u := opener.value.href;
      }

      var h := heading;
      if Truthy(attrs.heading) {
        h := attrs.heading;
        threw := false;
      } else if opener.Some? {
        h := opener.value.text;
        threw := false;
      } else {
        // reading `text` of a null opener
        threw := true;
      }

      url, toggleClass, backgroundId, backgroundHtml := u, shown, bgId, bgHtml;
      modalSize, popupOpener, heading := attrs.modalSize, opener, h;
    }

    method Disconnect()
      requires Valid()
      modifies this, page
      ensures Valid()
      ensures Model() == PopupSpec.Disconnect(old(Model()))
    {
      var _ := Close(None, None);
    }

    method OpenModal(e: Event, id: WrapperNumber, w: Window) returns (fx: EventEffects)
      requires Valid()
      modifies this, page
      ensures Valid()
      ensures Model() == PopupSpec.OpenModal(old(Model()), e, id, w)
      ensures fx == OpenEffects
    {
      fx := OpenEffects;
      if !e.targetInside {
        return;
      }

      if wrapperTarget.None? {
        wrapperTarget := Some(Portal(id, None, false));
      }

      if !open {
        open := true;

        // the content request is issued; its response arrives through ReceiveContent
        fetches := fetches + [url];
        var portal := wrapperTarget.value;
        var dialog := Template(heading);
        portal := portal.(dialog := Some(dialog));

        // the dismiss button's listener comes with the template; the wrapper
        // listens for form submissions
        portal := portal.(submitListener := true);
        wrapperTarget := Some(portal);

        LockScroll(w);

        dialog := dialog.(containerClasses := dialog.containerClasses + {toggleClass});
        dialog := dialog.(display := Some("block"));
        wrapperTarget := Some(portal.(dialog := Some(dialog)));
      }
    }

    method Close(e: Option<Event>, cancelled: Option<bool>) returns (fx: EventEffects)
      modifies this, page
      ensures old(Valid()) ==> Valid()
      ensures Model() == PopupSpec.Close(old(Model()), e, cancelled)
      ensures fx == CloseEffects(e)
    {
      fx := NoEffects;
      if e.Some? {
        fx := fx.(defaultPrevented := true);
        if e.value.kind == SubmitEnd {
          fx := fx.(submissionStops := fx.submissionStops + 1);
          fx := fx.(propagationStopped := true);
        }
      }

      if open {
        open := false;
        // the toggle class comes off a container that leaves with its wrapper
        wrapperTarget := None;

        // an event-less close comes from disconnect and tells nobody
        if e.Some? {
          NotifyOpenerAboutClose(cancelled);
        }

        UnlockScroll();
      }
    }

    method CloseWithKeyboard(e: Event) returns (fx: EventEffects)
      requires Valid()
      modifies this, page
      ensures Valid()
      ensures Model() == PopupSpec.CloseWithKeyboard(old(Model()), e)
      ensures fx == KeyboardEffects(e)
    {
      if e.keyCode == EscapeKey {
        fx := Close(Some(e), Some(true));
      } else {
        fx := NoEffects;
      }
    }

    /** The once-only click listener on the dismiss button. */
    method ClickDismiss(e: Event) returns (fx: EventEffects)
      requires Valid()
      modifies this, page
      ensures Valid()
      ensures Model() == PopupSpec.ClickDismiss(old(Model()), e)
      ensures fx == DismissEffects(old(Model()), e)
    {
      if !(wrapperTarget.Some? && wrapperTarget.value.dialog.Some? && wrapperTarget.value.dialog.value.dismissListener) {
        fx := NoEffects;
        return;
      }
      var portal := wrapperTarget.value;
      wrapperTarget := Some(portal.(dialog := Some(portal.dialog.value.(dismissListener := false))));
      fx := Close(Some(e), Some(true));
    }

    /** The response to the content request arrives. */
    method ReceiveContent(ok: bool, text: string)
      requires Valid()
      modifies this
      ensures Valid()
      ensures Model() == PopupSpec.ReceiveContent(old(Model()), ok, text)
    {
      var html := if ok then text else UndefinedMarkup;
      if wrapperTarget.Some? && wrapperTarget.value.dialog.Some? {
        var portal := wrapperTarget.value;
        wrapperTarget := Some(portal.(dialog := Some(portal.dialog.value.(content := Html(html)))));
      }
    }

    method LockScroll(w: Window)
      modifies this`scrollPosition, page
      ensures Model() == PopupSpec.LockScroll(old(Model()), w)
    {
      // pad the body by the scrollbar width so the page does not shift
      page.bodyPaddingRight := Some(w.innerWidth - w.clientWidth);
      SaveScrollPosition(w);
      page.bodyClasses := page.bodyClasses + {"modal-open"};
      page.bodyClasses := page.bodyClasses + {"fixed", "inset-x-0", "overflow-hidden"};
      // shift the fixed body up so it stays in place
      page.bodyTop := Some(-scrollPosition);
    }

    method UnlockScroll()
      modifies page
      ensures Model() == PopupSpec.UnlockScroll(old(Model()))
    {
      page.bodyPaddingRight := None;
      page.bodyClasses := page.bodyClasses - {"fixed", "inset-x-0", "overflow-hidden"};
      page.bodyClasses := page.bodyClasses - {"modal-open"};
      RestoreScrollPosition();
      page.bodyTop := None;
    }

    method SaveScrollPosition(w: Window)
      modifies this`scrollPosition
      ensures Model() == PopupSpec.SaveScrollPosition(old(Model()), w)
    {
      scrollPosition := if w.pageYOffset != 0 then w.pageYOffset else w.bodyScrollTop;
    }

    method RestoreScrollPosition()
      modifies page`scrollTop
      ensures Model() == PopupSpec.RestoreScrollPosition(old(Model()))
    {
      page.scrollTop := scrollPosition;
    }

    method HandleFormSubmission(evt: Event) returns (fx: EventEffects)
      requires Valid()
      modifies this, page
      ensures Valid()
      ensures Model() == PopupSpec.HandleFormSubmission(old(Model()), evt)
      ensures fx == FormEffects(evt)
    {
      fx := NoEffects;
      // an unsuccessful submission keeps the popup as it is
      if !evt.success {
        return;
      }
      // the target is a form, or its closest enclosing form
      var form := evt.enclosingForm;
      if !form {
        return;
      }
      fx := fx.(submissionStops := fx.submissionStops + 1);
      var closing := Close(Some(evt), None);
      fx := Then(fx, closing);
    }

    method NotifyOpenerAboutClose(cancelled: Option<bool>)
      modifies this`notifications
      ensures Model() == PopupSpec.NotifyOpenerAboutClose(old(Model()), cancelled)
    {
      if popupOpener.None? {
        return;
      }
      notifications := notifications + [Notification(cancelled, popupOpener.value)];
    }
  }

  /** The trigger of the edit popup: an anchor to `/items/5/edit` whose
      `data-action` wires a click to openModal and Escape to closeWithKeyboard. */
  function EditLink(): (r: Element)
    ensures HasOpenAction(r) && r.tagName == "A"
  {
    var action := "click->" + OpenAction + " keydown@window->popup#closeWithKeyboard";
    assert action[7..7 + |OpenAction|] == OpenAction;
    assert OccursAt(action, OpenAction, 7);
    Element(7, "A", Some(action), Some("/items/5/edit"), Some("Edit"))
  }

  /** What a caller can establish from the contracts alone: the edit link is
      clicked, and Escape closes the popup, telling the opener it was cancelled
      and handing the body back unlocked at the saved scroll position. */
  method EditThenEscape(page: Page)
    requires Unlocked(page.Snapshot())
    modifies page
  {
    var link := EditLink();
    var attrs := DataAttrs(Some("/items/5/edit"), Some("show"), None, None, None, None);
    var popup := new Popup(link, [], attrs, page);
    var threw := popup.Connect();
    assert !threw && popup.popupOpener == Some(link);

    var _ := popup.OpenModal(Event(Click, 0, true, false, false), 42, Window(1280, 1265, 300, 0));
    assert popup.open && popup.fetches == [Some("/items/5/edit")];
    assert page.bodyTop == Some(-300) && page.bodyPaddingRight == Some(15);

    var fx := popup.CloseWithKeyboard(Event(KeyDown, EscapeKey, false, false, false));
    assert fx.defaultPrevented;
    assert !popup.open && popup.wrapperTarget.None?;
    assert popup.notifications == [Notification(Some(true), link)];
    assert Unlocked(page.Snapshot()) && page.scrollTop == 300;
  }

  /** On a fresh page, the edit link is clicked with no data-popup-url: the link's
      href is requested, the dialog shows the link's text as its title, and a
      failed response replaces the spinner with the text "undefined". */
  method EditWithFailedResponse()
  {
    var page := new Page(Body({"antialiased"}, None, None, 0));
    var link := EditLink();
    var attrs := DataAttrs(None, None, None, None, None, None);
    var popup := new Popup(link, [], attrs, page);
    var threw := popup.Connect();
    assert !threw && popup.url == Some("/items/5/edit") && popup.toggleClass == "show";

    var _ := popup.OpenModal(Event(Click, 0, true, false, false), 42, Window(1280, 1280, 0, 0));
    assert popup.fetches == [Some("/items/5/edit")];
    assert popup.wrapperTarget.value.dialog.value.title == Some("Edit");

    popup.ReceiveContent(false, "Not Found");
    assert popup.open && popup.wrapperTarget.value.dialog.value.content == Html("undefined");
  }
}
