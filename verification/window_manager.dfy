/**
 * The window registry: a dictionary from identifier to window controller and
 * a counter that mints fresh identifiers. Cocoa's window and controller
 * objects appear as opaque handles that carry only what the registry reads
 * (a window's identifier and whether it is the key window) and ghost flags
 * recording the toolkit calls the registry makes on them.
 */
module WindowManagement {
  import opened Options
  import opened WindowIds

  /** A toolkit window (`NSWindow`). */
  class Window {
    /** The window's own identifier; the registry reads it but never sets it. */
    var identifier: Option<string>
    /** Whether the toolkit currently reports this window as the key window. */
    var isKey: bool
    /** Set once `close()` has been sent to the window. */
    ghost var closed: bool
    /** Set once `makeKeyAndOrderFront` has been sent to the window. */
    ghost var shown: bool

    constructor (identifier: Option<string>, isKey: bool)
      ensures this.identifier == identifier && this.isKey == isKey
      ensures !closed && !shown
    {
      this.identifier := identifier;
      this.isKey := isKey;
      closed := false;
      shown := false;
    }
  }

  /** A toolkit window controller (`NSWindowController`) wrapping an optional window. */
  class Controller {
    const window: Window?
    /** Set once `close()` has been sent to the controller. */
    ghost var closed: bool

    constructor (window: Window?)
      ensures this.window == window && !closed
    {
      this.window := window;
      closed := false;
    }
  }

  /** Both halves of an entry have been sent `close()`. */
  ghost predicate EntryClosed(c: Controller)
    reads c, c.window
  {
    c.closed && (c.window != null ==> c.window.closed)
  }

  /** `add` keeps a window's own identifier exactly when it has one and that key is free. */
  predicate Honors(own: Option<string>, entries: map<string, Controller>) {
    own.Some? && own.value !in entries
  }

  /** What the public `create` yields: an identifier, or a trap of the process. */
  datatype CreateOutcome = Created(id: string) | Trapped

  class WindowManager {
    var activeWindows: map<string, Controller>
    /** The number of identifiers minted so far; no operation decreases it. */
    var uniqueId: nat

    constructor ()
      ensures activeWindows == map[] && uniqueId == 0
    {
      activeWindows := map[];
      uniqueId := 0;
    }

    /** Every identifier minted so far, in the order `newId` returned them. */
    ghost function Issued(): seq<string>
      reads this
    {
      MintedUpTo(uniqueId)
    }

    /** The controller stored under `key`, as a frame. */
    ghost function ControllerAt(key: Option<string>): set<Controller>
      reads this
    {
      if key.Some? && key.value in activeWindows then {activeWindows[key.value]} else {}
    }

    /** The window of the controller stored under `key`, as a frame. */
    ghost function WindowAt(key: Option<string>): set<Window>
      reads this
    {
      if key.Some? && key.value in activeWindows && activeWindows[key.value].window != null
      then {activeWindows[key.value].window}
      else {}
    }

    /** Every registered controller. */
    ghost function Controllers(): set<Controller>
      reads this
    {
      activeWindows.Values
    }

    /** Every window some registered controller holds. */
    ghost function Windows(): set<Window>
      reads this
    {
      set c | c in activeWindows.Values && c.window != null :: c.window
    }

    /** No registered controller holds a window that is key. */
    ghost predicate NoKeyWindow()
      reads this, Windows()
    {
      forall k :: k in activeWindows && activeWindows[k].window != null ==> !activeWindows[k].window.isKey
    }

    /** `show(id)` reaches `makeKeyAndOrderFront`: the entry exists, holds a window, and that window has an identifier. */
    ghost predicate Showable(id: string)
      reads this, WindowAt(Some(id))
    {
      id in activeWindows && activeWindows[id].window != null && activeWindows[id].window.identifier.Some?
    }

    /** Formats the counter as an identifier, then advances the counter. */
    method NewId() returns (id: string)
      modifies this`uniqueId
      ensures id == MintedId(old(uniqueId))
      ensures uniqueId == old(uniqueId) + 1
      ensures Issued() == old(Issued()) + [id]
      ensures id !in old(Issued())
    {
      MintedPairwiseDistinct(uniqueId + 1);
      assert MintedUpTo(uniqueId + 1) == MintedUpTo(uniqueId) + [MintedId(uniqueId)];
      id := MintedId(uniqueId);
      uniqueId := uniqueId + 1;
    }

    /**
     * Registers `window` in a new controller. Its own identifier is the key when
     * that key is free; otherwise a minted identifier is the key and is returned.
     * The window itself is never re-tagged, and a minted key that is already live
     * is overwritten.
     */
    method Add(window: Window) returns (override: Option<string>)
      modifies this`activeWindows, this`uniqueId
      ensures Honors(window.identifier, old(activeWindows)) ==>
                override == None && uniqueId == old(uniqueId)
      ensures !Honors(window.identifier, old(activeWindows)) ==>
                override == Some(MintedId(old(uniqueId))) && uniqueId == old(uniqueId) + 1 &&
                Issued() == old(Issued()) + [override.value] && override.value !in old(Issued())
      ensures var key := if override.Some? then override.value else window.identifier.value;
              key in activeWindows && fresh(activeWindows[key]) && activeWindows[key].window == window &&
              !activeWindows[key].closed && activeWindows == old(activeWindows)[key := activeWindows[key]]
    {
      var windowId: string;
      if Honors(window.identifier, activeWindows) {
        windowId := window.identifier.value;
        override := None;
      } else {
        var id := NewId();
        override := Some(id);
        windowId := id;
      }
      var windowController := new Controller(window);
      activeWindows := activeWindows[windowId := windowController];
    }

    /**
     * `add` with the minting branch repeated until the minted key is free, so
     * that no live entry is ever overwritten.
     */
    method AddFresh(window: Window) returns (override: Option<string>)
      modifies this`activeWindows, this`uniqueId
      ensures Honors(window.identifier, old(activeWindows)) ==>
                override == None && uniqueId == old(uniqueId)
      ensures !Honors(window.identifier, old(activeWindows)) ==>
                override.Some? && old(uniqueId) < uniqueId && override.value == MintedId(uniqueId - 1) &&
                forall j :: old(uniqueId) <= j < uniqueId - 1 ==> MintedId(j) in old(activeWindows)
      ensures var key := if override.Some? then override.value else window.identifier.value;
              key !in old(activeWindows) && key in activeWindows && fresh(activeWindows[key]) &&
              activeWindows[key].window == window && !activeWindows[key].closed &&
              activeWindows == old(activeWindows)[key := activeWindows[key]]
    {
      var windowId: string;
      if Honors(window.identifier, activeWindows) {
        windowId := window.identifier.value;
        override := None;
      } else {
        var id := NewId();
        while id in activeWindows
          invariant activeWindows == old(activeWindows)
          invariant old(uniqueId) < uniqueId && id == MintedId(uniqueId - 1)
          invariant forall j :: old(uniqueId) <= j < uniqueId - 1 ==> MintedId(j) in activeWindows
          decreases |Pending(activeWindows.Keys, uniqueId - 1)|
        {
          PendingShrinks(activeWindows.Keys, uniqueId - 1);
          id := NewId();
        }
        override := Some(id);
        windowId := id;
      }
      var windowController := new Controller(window);
      activeWindows := activeWindows[windowId := windowController];
    }

    /** Closes the window and the controller stored under `id`, if any, and drops that one key. */
    method RemoveWith(id: string)
      modifies this`activeWindows, ControllerAt(Some(id))`closed, WindowAt(Some(id))`closed
      ensures activeWindows == old(activeWindows) - {id}
      ensures uniqueId == old(uniqueId)
      ensures id in old(activeWindows) ==> EntryClosed(old(activeWindows)[id])
    {
      if id in activeWindows {
        var controller := activeWindows[id];
        if controller.window != null {
          controller.window.closed := true;
        }
        controller.closed := true;
      }
      activeWindows := activeWindows - {id};
    }

    /**
     * Removes by the window's own identifier, which need not be the key the
     * window was stored under; a window without an identifier is ignored.
     */
    method Remove(window: Window)
      modifies this`activeWindows, ControllerAt(window.identifier)`closed, WindowAt(window.identifier)`closed
      ensures window.identifier.None? ==> activeWindows == old(activeWindows)
      ensures window.identifier.Some? ==>
                var id := window.identifier.value;
                activeWindows == old(activeWindows) - {id} &&
                (id in old(activeWindows) ==> EntryClosed(old(activeWindows)[id]))
      ensures uniqueId == old(uniqueId)
    {
      if window.identifier.None? {
        return;
      }
      RemoveWith(window.identifier.value);
    }

    /**
     * Scans the entries, in no particular order, for a controller whose window
     * is key.
     */
    method GetKeyWindow() returns (keyWindow: Window?)
      ensures keyWindow != null ==>
                keyWindow.isKey && exists k :: k in activeWindows && activeWindows[k].window == keyWindow
      ensures keyWindow == null ==> NoKeyWindow()
    {
      var keys := activeWindows.Keys;
      while keys != {}
        invariant keys <= activeWindows.Keys
        invariant forall k :: k in activeWindows.Keys - keys && activeWindows[k].window != null ==>
                    !activeWindows[k].window.isKey
        decreases keys
      {
        var key :| key in keys;
        keys := keys - {key};
        var window := activeWindows[key].window;
        if window == null {
          continue;
        }
        if window.isKey {
          return window;
        }
      }
      return null;
    }

    /**
     * Removes the key window, found by `GetKeyWindow`, through `Remove`, that
     * is, by the key window's own identifier. `found` names the window found.
     */
    method RemoveKeyWindow() returns (ghost found: Window?)
      modifies this`activeWindows, Controllers()`closed, Windows()`closed
      ensures found == null ==> old(NoKeyWindow()) && activeWindows == old(activeWindows)
      ensures found != null ==>
                found.isKey && (exists k :: k in old(activeWindows) && old(activeWindows)[k].window == found) &&
                (found.identifier.None? ==> activeWindows == old(activeWindows)) &&
                (found.identifier.Some? ==>
                   var id := found.identifier.value;
                   activeWindows == old(activeWindows) - {id} &&
                   (id in old(activeWindows) ==> EntryClosed(old(activeWindows)[id])))
      ensures var gone := if found == null then None else found.identifier;
              (forall c :: c in old(Controllers()) - old(ControllerAt(gone)) ==> c.closed == old(c.closed)) &&
              (forall w :: w in old(Windows()) - old(WindowAt(gone)) ==> w.closed == old(w.closed))
      ensures uniqueId == old(uniqueId)
    {
      var keyWindow := GetKeyWindow();
      found := keyWindow;
      if keyWindow == null {
        return;
      }
      Remove(keyWindow);
    }

    /** Shows the window stored under `id`, when there is one that carries an identifier. */
    method Show(id: string)
      modifies WindowAt(Some(id))`shown
      ensures Showable(id) ==> activeWindows[id].window.shown
      ensures !Showable(id) ==> unchanged(WindowAt(Some(id)))
    {
      if id !in activeWindows || activeWindows[id].window == null {
        return;
      }
      ShowWindow(activeWindows[id].window);
    }

    /** Sends `makeKeyAndOrderFront` to `window` unless it has no identifier. */
    method ShowWindow(window: Window)
      modifies window`shown
      ensures window.shown == (old(window.shown) || window.identifier.Some?)
    {
      if window.identifier.None? {
        return;
      }
      window.shown := true;
    }

    /**
     * The private `create(delegate:root:)` as written: it mints an identifier
     * and tags a new window with it, but returns a second, untagged window.
     */
    method MakeWindow() returns (window: Window)
      modifies this`uniqueId
      ensures fresh(window) && window.identifier == None
      ensures !window.isKey && !window.closed && !window.shown
      ensures uniqueId == old(uniqueId) + 1
      ensures Issued() == old(Issued()) + [MintedId(old(uniqueId))]
    {
      var tagged := new Window(None, false);
      var id := NewId();
      tagged.identifier := Some(id);
      window := new Window(None, false);
    }

    /**
     * The public `create` as written. The window it receives carries no
     * identifier, so the force-unwrap of that identifier traps before the
     * window is added or shown; only the counter has moved.
     */
    method Create(shouldShow: bool) returns (outcome: CreateOutcome)
      modifies this`uniqueId
      ensures outcome == Trapped
      ensures activeWindows == old(activeWindows)
      ensures uniqueId == old(uniqueId) + 1
      ensures Issued() == old(Issued()) + [MintedId(old(uniqueId))]
    {
      var window := MakeWindow();
      // `window.identifier!` at line 31 unwraps nil: the call stops here.
      assert window.identifier.None?;
      outcome := Trapped;
    }

    /** The private `create(delegate:root:)` returning the window it tagged. */
    method MakeWindowCorrected() returns (window: Window)
      modifies this`uniqueId
      ensures fresh(window) && window.identifier == Some(MintedId(old(uniqueId)))
      ensures !window.isKey && !window.closed && !window.shown
      ensures uniqueId == old(uniqueId) + 1
      ensures Issued() == old(Issued()) + [window.identifier.value]
    {
      window := new Window(None, false);
      var id := NewId();
      window.identifier := Some(id);
    }

    /**
     * `create` with the tagged window returned and registered through
     * `AddFresh`, answering the key it was actually stored under.
     */
    method CreateCorrected(shouldShow: bool) returns (id: string)
      modifies this`activeWindows, this`uniqueId
      ensures id !in old(activeWindows) && id in activeWindows && fresh(activeWindows[id])
      ensures activeWindows == old(activeWindows)[id := activeWindows[id]]
      ensures activeWindows[id].window != null && fresh(activeWindows[id].window)
      ensures activeWindows[id].window.identifier == Some(MintedId(old(uniqueId)))
      ensures activeWindows[id].window.shown == shouldShow
      ensures old(uniqueId) < uniqueId
      ensures MintedId(old(uniqueId)) !in old(activeWindows) ==>
                id == MintedId(old(uniqueId)) && uniqueId == old(uniqueId) + 1
    {
      var window := MakeWindowCorrected();
      id := window.identifier.value;
      var override := AddFresh(window);
      if override.Some? {
        id := override.value;
      }
      if shouldShow {
        ShowWindow(window);
      }
    }
  }
}
