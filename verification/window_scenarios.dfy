/**
 * Client code that calls the registry's operations in the situations its
 * callers meet: what each sequence of calls leaves behind follows from the
 * operations' contracts alone.
 */
module WindowScenarios {
  import opened Options
  import opened WindowIds
  import opened WindowManagement

  lemma FirstMintedIds()
    ensures MintedId(0) == "WINDOW_0" && MintedId(1) == "WINDOW_1"
  {
  }

  /**
   * A window tagged "main" is registered under its own identifier; a second
   * window tagged "main" is re-keyed under "WINDOW_0" but keeps its own tag.
   */
  method HonorThenOverride() returns (m: WindowManager, first: Window, second: Window,
                                      r1: Option<string>, r2: Option<string>)
    ensures r1 == None && r2 == Some("WINDOW_0")
    ensures m.activeWindows.Keys == {"main", "WINDOW_0"}
    ensures m.activeWindows["main"].window == first && m.activeWindows["WINDOW_0"].window == second
    ensures second.identifier == Some("main") && m.uniqueId == 1
  {
    FirstMintedIds();
    m := new WindowManager();
    first := new Window(Some("main"), false);
    second := new Window(Some("main"), false);
    r1 := m.Add(first);
    r2 := m.Add(second);
  }

  /**
   * The minting branch of `add` never looks at the dictionary: a window
   * tagged "WINDOW_0" is live when the next window collides with it, the
   * minted key is "WINDOW_0" again, equal to the colliding window's own
   * identifier, and the first entry is replaced without being closed.
   */
  method MintedKeyOverwritesLiveEntry() returns (m: WindowManager, first: Window, second: Window,
                                                 r2: Option<string>)
    ensures r2 == second.identifier == Some("WINDOW_0")
    ensures m.activeWindows.Keys == {"WINDOW_0"} && m.activeWindows["WINDOW_0"].window == second
    ensures !first.closed
  {
    FirstMintedIds();
    m := new WindowManager();
    first := new Window(Some("WINDOW_0"), false);
    second := new Window(Some("WINDOW_0"), false);
    var r1 := m.Add(first);
    r2 := m.Add(second);
  }

  /** The same calls through `AddFresh` keep both windows registered. */
  method FreshKeyKeepsLiveEntry() returns (m: WindowManager, first: Window, second: Window,
                                           r2: Option<string>)
    ensures r2 == Some("WINDOW_1")
    ensures m.activeWindows.Keys == {"WINDOW_0", "WINDOW_1"}
    ensures m.activeWindows["WINDOW_0"].window == first && m.activeWindows["WINDOW_1"].window == second
  {
    FirstMintedIds();
    m := new WindowManager();
    first := new Window(Some("WINDOW_0"), false);
    second := new Window(Some("WINDOW_0"), false);
    var r1 := m.AddFresh(first);
    r2 := m.AddFresh(second);
    MintedIdInjective(0, m.uniqueId - 1);
  }

  /**
   * Removing a re-keyed window by reference removes the entry stored under
   * its own identifier, which belongs to another window, and leaves its own.
   */
  method RemoveReKeyedWindow() returns (m: WindowManager, first: Window, second: Window)
    ensures m.activeWindows.Keys == {"WINDOW_0"} && m.activeWindows["WINDOW_0"].window == second
    ensures first.closed && !second.closed
  {
    FirstMintedIds();
    m := new WindowManager();
    first := new Window(Some("main"), false);
    second := new Window(Some("main"), false);
    var r1 := m.Add(first);
    var r2 := m.Add(second);
    m.Remove(second);
  }

  /**
   * Show, remove, remove again and show again: the second removal and the
   * second show change nothing.
   */
  method ShowRemoveRoundTrip() returns (m: WindowManager, w: Window)
    ensures m.activeWindows == map[] && m.uniqueId == 0
    ensures w.shown && w.closed
  {
    m := new WindowManager();
    w := new Window(Some("X"), false);
    var r := m.Add(w);
    m.Show("X");
    m.RemoveWith("X");
    m.RemoveWith("X");
    m.Show("X");
  }

  /**
   * A window without an identifier is stored under a minted key, but since
   * it is never tagged, showing that key sends it nothing.
   */
  method UntaggedWindowIsNeverShown() returns (m: WindowManager, w: Window)
    ensures m.activeWindows.Keys == {"WINDOW_0"} && m.activeWindows["WINDOW_0"].window == w
    ensures !w.shown
  {
    FirstMintedIds();
    m := new WindowManager();
    w := new Window(None, false);
    var r := m.Add(w);
    m.Show("WINDOW_0");
  }

  /** Three windows registered under their own identifiers "A", "B" and "C"; only "B" is key. */
  method ThreeWindows() returns (m: WindowManager, a: Window, b: Window, c: Window)
    ensures m.activeWindows.Keys == {"A", "B", "C"}
    ensures m.activeWindows["A"].window == a && m.activeWindows["B"].window == b && m.activeWindows["C"].window == c
    ensures !a.isKey && b.isKey && !c.isKey
    ensures a.identifier == Some("A") && b.identifier == Some("B") && c.identifier == Some("C")
    ensures !a.closed && !b.closed && !c.closed
    ensures fresh(m) && fresh(a) && fresh(b) && fresh(c)
    ensures forall k :: k in m.activeWindows ==> fresh(m.activeWindows[k])
  {
    m := new WindowManager();
    a := new Window(Some("A"), false);
    b := new Window(Some("B"), true);
    c := new Window(Some("C"), false);
    var ra := m.Add(a);
    var rb := m.Add(b);
    var rc := m.Add(c);
  }

  /** With exactly one key window registered, the scan finds that one. */
  method KeyWindowFound() returns (m: WindowManager, b: Window, found: Window?)
    ensures b.isKey && found == b
  {
    var a, c;
    m, a, b, c := ThreeWindows();
    found := m.GetKeyWindow();
    assert !m.NoKeyWindow() by { assert m.activeWindows["B"].window.isKey; }
    var k :| k in m.activeWindows && m.activeWindows[k].window == found;
    assert k == "A" || k == "B" || k == "C";
  }

  /** With exactly one key window registered, removing the key window drops exactly its entry. */
  method KeyWindowRemoved() returns (m: WindowManager, a: Window, b: Window, c: Window)
    ensures m.activeWindows.Keys == {"A", "C"}
    ensures m.activeWindows["A"].window == a && m.activeWindows["C"].window == c
    ensures b.closed && !a.closed && !c.closed
  {
    m, a, b, c := ThreeWindows();
    ghost var entries := m.activeWindows;
    label Before:
    ghost var removed := m.RemoveKeyWindow();
    assert removed == b by {
      assert !old@Before(m.NoKeyWindow()) by { assert entries["B"].window.isKey; }
      var k :| k in entries && entries[k].window == removed;
      assert k == "A" || k == "B" || k == "C";
    }
  }

  /** Identifiers minted before and after a removal differ. */
  method DistinctAcrossRemoval() returns (m: WindowManager, r1: Option<string>, r2: Option<string>)
    ensures r1 == Some("WINDOW_0") && r2 == Some("WINDOW_1")
    ensures m.activeWindows.Keys == {"WINDOW_1"}
  {
    FirstMintedIds();
    m := new WindowManager();
    var w1 := new Window(None, false);
    var w2 := new Window(None, false);
    r1 := m.Add(w1);
    m.RemoveWith(r1.value);
    r2 := m.Add(w2);
  }

  /** The public `create` traps, and only the counter has moved. */
  method CreateTraps() returns (m: WindowManager, outcome: CreateOutcome)
    ensures outcome == Trapped
    ensures m.activeWindows == map[] && m.uniqueId == 1
  {
    m := new WindowManager();
    outcome := m.Create(true);
  }

  /** The corrected `create`, called twice, registers two windows under the first two minted keys. */
  method CreateCorrectedTwice() returns (m: WindowManager, id1: string, id2: string)
    ensures id1 == "WINDOW_0" && id2 == "WINDOW_1"
    ensures m.activeWindows.Keys == {"WINDOW_0", "WINDOW_1"}
    ensures m.activeWindows[id1].window != null && m.activeWindows[id1].window.shown
    ensures m.activeWindows[id2].window != null && !m.activeWindows[id2].window.shown
  {
    FirstMintedIds();
    m := new WindowManager();
    id1 := m.CreateCorrected(true);
    MintedIdInjective(0, 1);
    id2 := m.CreateCorrected(false);
  }
}
