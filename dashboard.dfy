/** The view state of the dashboard screen and the handlers that change it:
    the attendance log appended to by the Clock In and Clock Out buttons,
    the sidebar trip card that is expanded, the page selected in the bottom
    bar, and whether the POD submenu is open.

    The clock is not read here: each clock handler takes the time text it
    stores as a parameter.
 */
module Dashboard {

  datatype Option<T> = None | Some(value: T)

  /** The two pages the bottom bar switches between ("home" and "absensi"). */
  datatype Page = Home | Absensi

  /** The three expandable cards of the sidebar. */
  datatype TripCard = Approved | Finished | Pending

  /** The `type` of an attendance record: "Clock In" or "Clock Out". */
  datatype EntryKind = ClockIn | ClockOut

  /** One record `{type, time}` of the attendance list. */
  datatype AttendanceEntry = AttendanceEntry(kind: EntryKind, time: string)

  /** The new value of the expanded-card slot after a click on `card`: the card
      collapses when it was the expanded one, and otherwise becomes the expanded one. */
  function Toggle(expanded: Option<TripCard>, card: TripCard): Option<TripCard> {
    if expanded == Some(card) then None else Some(card)
  }

  /** A click on a card leaves that card expanded exactly when it was not expanded
      before, and leaves no other card expanded. */
  lemma ToggleExpands(expanded: Option<TripCard>, card: TripCard)
    ensures Toggle(expanded, card) == Some(card) <==> expanded != Some(card)
    ensures Toggle(expanded, card) == None <==> expanded == Some(card)
  {
  }

  /** Two clicks on the same card restore the slot exactly when it was empty or held
      that card; when another card was expanded they leave the slot empty. */
  lemma ToggleTwice(expanded: Option<TripCard>, card: TripCard)
    ensures Toggle(Toggle(expanded, card), card) == expanded <==>
              expanded == None || expanded == Some(card)
    ensures expanded != None && expanded != Some(card) ==> Toggle(Toggle(expanded, card), card) == None
  {
  }

  /** What the screen shows for a given state. */
  datatype Screen = Screen(
    ratingAndMap: bool,                // the rating and map cards of the home page
    absensi: bool,                     // the attendance card with its buttons and list
    sidebar: bool,                     // the three trip cards
    expandedPanel: Option<TripCard>,   // the card whose detail panel is open on screen
    podMenu: bool,                     // the POD submenu
    log: seq<AttendanceEntry>)         // the attendance list as rendered, in order

  class Dashboard {
    var showPodMenu: bool
    var currentPage: Page
    var attendance: seq<AttendanceEntry>
    var expandedTrip: Option<TripCard>

    /** The state of a freshly mounted screen. */
    constructor ()
      ensures !showPodMenu && currentPage == Home
      ensures attendance == [] && expandedTrip == None
    {
      showPodMenu := false;
      currentPage := Home;
      attendance := [];
      expandedTrip := None;
    }

    /** What is on screen: the home body on the home page and the attendance body on
        the Absensi page, never both; the sidebar exactly on the home page, with the
        expanded card's detail panel open in it; the attendance list, in order, on the
        Absensi page and nowhere else. */
    function View(): (s: Screen)
      reads this
      ensures s.ratingAndMap != s.absensi
      ensures s.absensi <==> currentPage == Absensi
      ensures s.sidebar <==> currentPage == Home
      ensures s.sidebar ==> s.expandedPanel == expandedTrip
      ensures s.expandedPanel.Some? ==> s.sidebar && s.expandedPanel == expandedTrip
      ensures s.absensi ==> s.log == attendance
      ensures !s.absensi ==> s.log == []
      ensures s.podMenu == showPodMenu
    {
      var home := currentPage == Home;
      Screen(home, !home, home,
             if home then expandedTrip else None,
             showPodMenu,
             if home then [] else attendance)
    }

    /** `handleClockIn`: appends one "Clock In" record with the given time at the end
        of the list; no pairing with earlier records is checked. */
    method HandleClockIn(time: string)
      modifies this
      ensures attendance == old(attendance) + [AttendanceEntry(ClockIn, time)]
      ensures showPodMenu == old(showPodMenu) && currentPage == old(currentPage)
      ensures expandedTrip == old(expandedTrip)
    {
      attendance := attendance + [AttendanceEntry(ClockIn, time)];
    }

    /** `handleClockOut`: appends one "Clock Out" record with the given time at the end
        of the list; no pairing with earlier records is checked. */
    method HandleClockOut(time: string)
      modifies this
      ensures attendance == old(attendance) + [AttendanceEntry(ClockOut, time)]
      ensures showPodMenu == old(showPodMenu) && currentPage == old(currentPage)
      ensures expandedTrip == old(expandedTrip)
    {
      attendance := attendance + [AttendanceEntry(ClockOut, time)];
    }

    /** A click on a sidebar card: `setExpandedTrip(expandedTrip === card ? null : card)`. */
    method ClickCard(card: TripCard)
      modifies this
      ensures expandedTrip == Toggle(old(expandedTrip), card)
      ensures expandedTrip == Some(card) <==> old(expandedTrip) != Some(card)
      ensures showPodMenu == old(showPodMenu) && currentPage == old(currentPage)
      ensures attendance == old(attendance)
    {
      ToggleExpands(expandedTrip, card);
      expandedTrip := Toggle(expandedTrip, card);
    }

    /** The POD button: opens the submenu when closed and closes it when open;
        the page stays as it is. */
    method ClickPod()
      modifies this
      ensures showPodMenu == !old(showPodMenu)
      ensures currentPage == old(currentPage)
      ensures attendance == old(attendance) && expandedTrip == old(expandedTrip)
    {
      showPodMenu := !showPodMenu;
    }

    /** The Home button: selects the home page and closes the POD submenu. */
    method ClickHome()
      modifies this
      ensures currentPage == Home && !showPodMenu
      ensures View().sidebar && !View().podMenu
      ensures attendance == old(attendance) && expandedTrip == old(expandedTrip)
    {
      currentPage := Home;
      showPodMenu := false;
    }

    /** The Absensi button: selects the attendance page and closes the POD submenu. */
    method ClickAbsensi()
      modifies this
      ensures currentPage == Absensi && !showPodMenu
      ensures View().absensi && View().log == attendance && !View().sidebar
      ensures attendance == old(attendance) && expandedTrip == old(expandedTrip)
    {
      currentPage := Absensi;
      showPodMenu := false;
    }
  }

  /** A session that clocks in at `t1` and out at `t2` from the attendance page ends
      with those two records, in that order, on screen. */
  method ClockInThenOut(t1: string, t2: string) returns (shown: seq<AttendanceEntry>)
    ensures shown == [AttendanceEntry(ClockIn, t1), AttendanceEntry(ClockOut, t2)]
  {
    var d := new Dashboard();
    d.ClickAbsensi();
    d.HandleClockIn(t1);
    d.HandleClockOut(t2);
    shown := d.View().log;
  }

  /** Clicking the same card twice from the start, while the user goes to the
      attendance page and back in between, leaves it collapsed again. */
  method CardSurvivesNavigation(card: TripCard) returns (panel: Option<TripCard>, after: Option<TripCard>)
    ensures panel == Some(card)
    ensures after == None
  {
    var d := new Dashboard();
    d.ClickCard(card);
    d.ClickAbsensi();
    d.ClickHome();
    panel := d.View().expandedPanel;
    d.ClickCard(card);
    after := d.View().expandedPanel;
  }
}
