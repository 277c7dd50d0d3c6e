/** The dashboard's state machine: the `useState` fields of the App
    component and the handlers that update them (the feed fetch, the tag
    chips, Ingest, Send Weekly and the notification toast). */
module Dashboard {
  import opened Strings
  import opened Taxonomy
  import opened Feed

  /** The four tiles above the feed. */
  datatype Stats = Stats(totalArticles: nat, thisWeek: nat, activeSubscribers: nat, topTag: string)

  /** The snapshot the dashboard shows once mounted. */
  const MockStats := Stats(247, 18, 156, "Compensation")

  /** How an awaited step settles: it resolves, or it throws into the
      handler's catch branch. */
  datatype Outcome = Resolved | Rejected

  /** An Ingest or Send Weekly press waiting on its delay, with what its
      closure saw when the button was pressed. */
  datatype Task =
    | IngestRun(query: string, tag: string)
    | ReportRun(subscribers: nat)

  const IngestDone := "Ingestion complete! 12 new articles added."
  const IngestFailed := "Ingestion failed. Please try again."
  const ReportFailed := "Failed to send report. Please try again."
  const ReportPrefix := "Weekly report sent to "
  const ReportSuffix := " subscribers!"

  /** The success message of Send Weekly for n subscribers. */
  function ReportSent(n: nat): string
  {
    ReportPrefix + Decimal(n) + ReportSuffix
  }

  /** The toast a settled task posts. */
  function Message(task: Task, outcome: Outcome): string
  {
    match task
    case IngestRun(_, _) => if outcome == Resolved then IngestDone else IngestFailed
    case ReportRun(n) => if outcome == Resolved then ReportSent(n) else ReportFailed
  }

  /** The success message names the subscriber count: the text between the
      fixed prefix and suffix is the decimal numeral of n. */
  lemma ReportSentNames(n: nat)
    ensures |ReportSent(n)| > |ReportPrefix| + |ReportSuffix|
    ensures var s := ReportSent(n);
      var digits := s[|ReportPrefix|..|s| - |ReportSuffix|];
      (forall k :: 0 <= k < |digits| ==> IsDigit(digits[k])) && DigitsValue(digits) == n
  {
    var s := ReportSent(n);
    assert s[|ReportPrefix|..|s| - |ReportSuffix|] == Decimal(n);
    DecimalRoundTrip(n);
  }

  /** Different subscriber counts give different success messages. */
  lemma ReportSentInjective(n: nat, m: nat)
    requires ReportSent(n) == ReportSent(m)
    ensures n == m
  {
    ReportSentNames(n);
    ReportSentNames(m);
  }

  /** Every toast tells success from failure. */
  lemma MessageTellsOutcome(task: Task)
    ensures Message(task, Resolved) != Message(task, Rejected)
  {
    match task
    case IngestRun(_, _) =>
      assert IngestDone[0] == 'I' && IngestFailed[10] == 'f';
      assert IngestDone[10] == 'c';
    case ReportRun(n) =>
      assert ReportSent(n)[0] == 'W';
      assert ReportFailed[0] == 'F';
  }

  /** The App component's state. `shown` counts the toasts posted so far and
      `hides` lists, oldest first, the pending 4000 ms hide timers by the
      number of the toast that scheduled them; `awaiting` lists, oldest
      first, the Ingest and Send Weekly presses whose 1500 ms delay has not
      yet settled. */
  class App {
    var query: string
    var selectedTag: string
    var loading: bool
    var articles: seq<Article>
    var stats: Stats
    var showNotification: bool
    var notificationMessage: string
    var shown: nat
    var hides: seq<nat>
    var awaiting: seq<Task>

    /** The spinner never runs without an unsettled press; the selected tag
        is empty or one of the chips; the pending hides are in the order
        they were scheduled, the newest one belongs to the newest toast, and
        a visible toast still has a hide pending. */
    ghost predicate Valid()
      reads this
    {
      (loading ==> awaiting != [])
      && (selectedTag == "" || selectedTag in AvailableTags)
      && (forall k :: 0 <= k < |hides| ==> 1 <= hides[k] <= shown)
      && (forall j, k :: 0 <= j < k < |hides| ==> hides[j] < hides[k])
      && (hides != [] ==> hides[|hides| - 1] == shown)
      && (showNotification ==> hides != [])
    }

    /** The spinner runs exactly while a press is unsettled, and at most one
        press is unsettled at a time: what the dashboard keeps when every
        control that fetches is disabled while busy. */
    ghost predicate Serial()
      reads this
    {
      (loading <==> awaiting != []) && |awaiting| <= 1
    }

    /** The initial `useState` values. */
    constructor ()
      ensures Valid() && Serial()
      ensures query == "" && selectedTag == "" && !loading && articles == []
      ensures stats == Stats(0, 0, 0, "Contract")
      ensures !showNotification && notificationMessage == ""
      ensures shown == 0 && hides == [] && awaiting == []
    {
      query := "";
      selectedTag := "";
      loading := false;
      articles := [];
      stats := Stats(0, 0, 0, "Contract");
      showNotification := false;
      notificationMessage := "";
      shown := 0;
      hides := [];
      awaiting := [];
    }

    /** `fetchArticles` as run by a closure that sees the query q and the
        selected tag t: the spinner goes on, the list the try block builds
        (`feed`; in the source always the five built-in articles,
        `MockArticles` of the clock reading) is filtered and stored (or, when
        the try block throws, the catch branch keeps the old list), and the
        spinner goes off on either path. */
    method Fetch(q: string, t: string, feed: seq<Article>, outcome: Outcome)
      requires Valid()
      modifies this
      ensures Valid() && !loading
      ensures articles == if outcome == Resolved then Visible(feed, q, t) else old(articles)
      ensures query == old(query) && selectedTag == old(selectedTag) && stats == old(stats)
      ensures showNotification == old(showNotification) && notificationMessage == old(notificationMessage)
      ensures shown == old(shown) && hides == old(hides) && awaiting == old(awaiting)
    {
      loading := true;
      if outcome == Resolved {
        articles := Visible(feed, q, t);
      }
      loading := false;
    }

    /** The mount effect: a fetch, then the stats snapshot. */
    method Mount(feed: seq<Article>, outcome: Outcome)
      requires Valid()
      modifies this
      ensures Valid() && !loading && stats == MockStats
      ensures articles == if outcome == Resolved then Visible(feed, query, selectedTag) else old(articles)
      ensures query == old(query) && selectedTag == old(selectedTag)
      ensures showNotification == old(showNotification) && notificationMessage == old(notificationMessage)
      ensures shown == old(shown) && hides == old(hides) && awaiting == old(awaiting)
    {
      Fetch(query, selectedTag, feed, outcome);
      stats := MockStats;
    }

    /** Typing in the search box only records the text. */
    method SetQuery(q: string)
      requires Valid()
      modifies this
      ensures Valid() && query == q
      ensures selectedTag == old(selectedTag) && loading == old(loading) && articles == old(articles)
      ensures stats == old(stats)
      ensures showNotification == old(showNotification) && notificationMessage == old(notificationMessage)
      ensures shown == old(shown) && hides == old(hides) && awaiting == old(awaiting)
    {
      query := q;
    }

    /** The Search button and the Enter key: a fetch with the current query
        and tag. Neither is disabled while busy, so a search during a
        pending Ingest or Send Weekly turns the spinner off early. */
    method Search(feed: seq<Article>, outcome: Outcome)
      requires Valid()
      modifies this
      ensures Valid() && !loading
      ensures articles == if outcome == Resolved then Visible(feed, query, selectedTag) else old(articles)
      ensures query == old(query) && selectedTag == old(selectedTag) && stats == old(stats)
      ensures showNotification == old(showNotification) && notificationMessage == old(notificationMessage)
      ensures shown == old(shown) && hides == old(hides) && awaiting == old(awaiting)
    {
      Fetch(query, selectedTag, feed, outcome);
    }

    /** The Search button and the Enter key disabled while busy: a press
        during a pending Ingest or Send Weekly does nothing, so the spinner
        stays on until that press settles. */
    method SearchGuarded(feed: seq<Article>, outcome: Outcome)
      requires Valid()
      modifies this
      ensures Valid() && loading == old(loading)
      ensures old(Serial()) ==> Serial()
      ensures articles == if !old(loading) && outcome == Resolved then Visible(feed, query, selectedTag) else old(articles)
      ensures query == old(query) && selectedTag == old(selectedTag) && stats == old(stats)
      ensures showNotification == old(showNotification) && notificationMessage == old(notificationMessage)
      ensures shown == old(shown) && hides == old(hides) && awaiting == old(awaiting)
    {
      if !loading {
        Fetch(query, selectedTag, feed, outcome);
      }
    }

    /** A tag chip click as the handler is written: the selection toggles,
        but the deferred fetch belongs to the render in which the chip was
        clicked and filters with the previous selection. */
    method HandleTagFilterAsWritten(tag: string, feed: seq<Article>, outcome: Outcome)
      requires Valid() && tag in AvailableTags
      modifies this
      ensures Valid() && !loading
      ensures selectedTag == Toggle(old(selectedTag), tag)
      ensures articles == if outcome == Resolved then Visible(feed, query, old(selectedTag)) else old(articles)
      ensures query == old(query) && stats == old(stats)
      ensures showNotification == old(showNotification) && notificationMessage == old(notificationMessage)
      ensures shown == old(shown) && hides == old(hides) && awaiting == old(awaiting)
    {
      var previous := selectedTag;
      selectedTag := Toggle(selectedTag, tag);
      Fetch(query, previous, feed, outcome);
    }

    /** A tag chip click: the selection toggles and the list is filtered
        with the new selection. */
    method HandleTagFilter(tag: string, feed: seq<Article>, outcome: Outcome)
      requires Valid() && tag in AvailableTags
      modifies this
      ensures Valid() && !loading
      ensures selectedTag == Toggle(old(selectedTag), tag)
      ensures articles == if outcome == Resolved then Visible(feed, query, selectedTag) else old(articles)
      ensures query == old(query) && stats == old(stats)
      ensures showNotification == old(showNotification) && notificationMessage == old(notificationMessage)
      ensures shown == old(shown) && hides == old(hides) && awaiting == old(awaiting)
    {
      selectedTag := Toggle(selectedTag, tag);
      Fetch(query, selectedTag, feed, outcome);
    }

    /** The Clear chip, shown only while a tag is selected, as written: the
        selection is emptied but the fetch still filters with the old tag. */
    method ClearAsWritten(feed: seq<Article>, outcome: Outcome)
      requires Valid() && selectedTag != ""
      modifies this
      ensures Valid() && !loading && selectedTag == ""
      ensures articles == if outcome == Resolved then Visible(feed, query, old(selectedTag)) else old(articles)
      ensures query == old(query) && stats == old(stats)
      ensures showNotification == old(showNotification) && notificationMessage == old(notificationMessage)
      ensures shown == old(shown) && hides == old(hides) && awaiting == old(awaiting)
    {
      var previous := selectedTag;
      selectedTag := "";
      Fetch(query, previous, feed, outcome);
    }

    /** The Clear chip: the selection is emptied and only the query
        filters. */
    method Clear(feed: seq<Article>, outcome: Outcome)
      requires Valid() && selectedTag != ""
      modifies this
      ensures Valid() && !loading && selectedTag == ""
      ensures articles == if outcome == Resolved then Visible(feed, query, "") else old(articles)
      ensures query == old(query) && stats == old(stats)
      ensures showNotification == old(showNotification) && notificationMessage == old(notificationMessage)
      ensures shown == old(shown) && hides == old(hides) && awaiting == old(awaiting)
    {
      selectedTag := "";
      Fetch(query, "", feed, outcome);
    }

    /** `showNotif`: the toast shows m and a hide is scheduled; hides
        scheduled by earlier toasts stay pending. */
    method ShowNotif(m: string)
      requires Valid()
      modifies this
      ensures Valid()
      ensures showNotification && notificationMessage == m
      ensures shown == old(shown) + 1 && hides == old(hides) + [shown]
      ensures query == old(query) && selectedTag == old(selectedTag) && loading == old(loading)
      ensures articles == old(articles) && stats == old(stats) && awaiting == old(awaiting)
    {
      notificationMessage := m;
      showNotification := true;
      shown := shown + 1;
      hides := hides + [shown];
    }

    /** `showNotif` that cancels the pending hide before scheduling its own:
        the only hide left pending belongs to the toast now shown, so no
        older timer can hide it early. */
    method ShowNotifCancelling(m: string)
      requires Valid()
      modifies this
      ensures Valid()
      ensures showNotification && notificationMessage == m
      ensures shown == old(shown) + 1 && hides == [shown]
      ensures query == old(query) && selectedTag == old(selectedTag) && loading == old(loading)
      ensures articles == old(articles) && stats == old(stats) && awaiting == old(awaiting)
    {
      notificationMessage := m;
      showNotification := true;
      shown := shown + 1;
      hides := [shown];
    }

    /** The oldest pending hide fires: the toast disappears and its text
        stays. When another hide is still pending, the one that fired was
        scheduled for an older toast, so the newest toast is hidden before
        its own 4000 ms are up. */
    method Expire()
      requires Valid() && hides != []
      modifies this
      ensures Valid() && !showNotification
      ensures notificationMessage == old(notificationMessage)
      ensures hides == old(hides)[1..] && shown == old(shown)
      ensures |old(hides)| >= 2 ==> old(hides)[0] < shown && hides[|hides| - 1] == shown
      ensures |old(hides)| == 1 ==> old(hides)[0] == shown && hides == []
      ensures query == old(query) && selectedTag == old(selectedTag) && loading == old(loading)
      ensures articles == old(articles) && stats == old(stats) && awaiting == old(awaiting)
    {
      showNotification := false;
      hides := hides[1..];
    }

    /** The Ingest button: disabled while the spinner runs; otherwise the
        spinner goes on and the press waits on its delay, remembering the
        query and tag its closure saw. */
    method RunIngest()
      requires Valid()
      modifies this
      ensures Valid()
      ensures old(loading) ==> loading && awaiting == old(awaiting)
      ensures !old(loading) ==> loading && awaiting == old(awaiting) + [IngestRun(query, selectedTag)]
      ensures old(Serial()) ==> Serial()
      ensures query == old(query) && selectedTag == old(selectedTag)
      ensures articles == old(articles) && stats == old(stats)
      ensures showNotification == old(showNotification) && notificationMessage == old(notificationMessage)
      ensures shown == old(shown) && hides == old(hides)
    {
      if !loading {
        loading := true;
        awaiting := awaiting + [IngestRun(query, selectedTag)];
      }
    }

    /** The Send Weekly button: disabled while the spinner runs; otherwise
        the spinner goes on and the press waits on its delay, remembering
        the subscriber count its closure saw. */
    method SendReport()
      requires Valid()
      modifies this
      ensures Valid()
      ensures old(loading) ==> loading && awaiting == old(awaiting)
      ensures !old(loading) ==> loading && awaiting == old(awaiting) + [ReportRun(stats.activeSubscribers)]
      ensures old(Serial()) ==> Serial()
      ensures query == old(query) && selectedTag == old(selectedTag)
      ensures articles == old(articles) && stats == old(stats)
      ensures showNotification == old(showNotification) && notificationMessage == old(notificationMessage)
      ensures shown == old(shown) && hides == old(hides)
    {
      if !loading {
        loading := true;
        awaiting := awaiting + [ReportRun(stats.activeSubscribers)];
      }
    }

    /** The oldest pending press settles (all delays are equal, so they
        settle in the order they started). Its toast is posted; a
        successful ingest then re-fetches with the query and tag it
        remembered (`fetched` says how that fetch's own try block ends);
        the spinner goes off on every path. */
    method Resume(outcome: Outcome, fetched: Outcome, feed: seq<Article>)
      requires Valid() && awaiting != []
      modifies this
      ensures Valid() && !loading
      ensures awaiting == old(awaiting)[1..]
      ensures old(Serial()) ==> Serial()
      ensures showNotification && notificationMessage == Message(old(awaiting)[0], outcome)
      ensures shown == old(shown) + 1 && hides == old(hides) + [shown]
      ensures articles ==
        match old(awaiting)[0]
        case IngestRun(q, t) =>
          if outcome == Resolved && fetched == Resolved then Visible(feed, q, t) else old(articles)
        case ReportRun(_) => old(articles)
      ensures query == old(query) && selectedTag == old(selectedTag) && stats == old(stats)
    {
      var task := awaiting[0];
      ShowNotif(Message(task, outcome));
      if task.IngestRun? && outcome == Resolved {
        Fetch(task.query, task.tag, feed, fetched);
      }
      awaiting, loading := awaiting[1..], false;
    }
  }

  // -----------------------------------------------------------------------
  // Runs of the dashboard from a fresh mount
  // -----------------------------------------------------------------------

  /** The dashboard right after its mount effect has loaded `feed`: the
      whole feed listed, the stats snapshot, nothing pending. */
  method MountedApp(feed: seq<Article>) returns (app: App)
    ensures fresh(app) && app.Valid() && app.Serial()
    ensures app.query == "" && app.selectedTag == "" && !app.loading
    ensures app.articles == feed && app.stats == MockStats
    ensures !app.showNotification && app.shown == 0 && app.hides == [] && app.awaiting == []
  {
    app := new App();
    app.Mount(feed, Resolved);
    VisibleIdentity(feed);
  }

  /** Mounting with no query and no tag shows the whole feed and the stats
      snapshot. */
  method MountShowsFeed(feed: seq<Article>) returns (shownArticles: seq<Article>, stats: Stats, busy: bool)
    ensures shownArticles == feed && stats == MockStats && !busy
  {
    var app := MountedApp(feed);
    shownArticles, stats, busy := app.articles, app.stats, app.loading;
  }

  /** Pressing Send Weekly while an ingest is pending does nothing. */
  method PressWhileBusy(feed: seq<Article>) returns (busy: bool, pending: seq<Task>)
    ensures busy && pending == [IngestRun("", "")]
  {
    var app := MountedApp(feed);
    app.RunIngest();
    app.SendReport();
    busy, pending := app.loading, app.awaiting;
  }

  /** A successful ingest posts its toast, refreshes the feed and stops the
      spinner. */
  method IngestSucceeds(feed: seq<Article>) returns (message: string, visible: bool, shownArticles: seq<Article>, busy: bool)
    ensures message == IngestDone && visible
    ensures shownArticles == feed && !busy
  {
    var app := MountedApp(feed);
    app.RunIngest();
    app.Resume(Resolved, Resolved, feed);
    VisibleIdentity(feed);
    message, visible, shownArticles, busy := app.notificationMessage, app.showNotification, app.articles, app.loading;
  }

  /** A failed ingest says so, keeps the mounted list and stops the
      spinner. */
  method IngestFails(feed: seq<Article>) returns (message: string, shownArticles: seq<Article>, busy: bool)
    ensures message == IngestFailed && shownArticles == feed && !busy
  {
    var app := MountedApp(feed);
    app.RunIngest();
    app.Resume(Rejected, Resolved, feed);
    message, shownArticles, busy := app.notificationMessage, app.articles, app.loading;
  }

  /** After mounting, a report names the 156 subscribers of the snapshot;
      a failed one says so, and the spinner stops either way. */
  method ReportNamesSubscribers(feed: seq<Article>, outcome: Outcome) returns (message: string, busy: bool)
    ensures outcome == Resolved ==> message == ReportSent(156)
    ensures outcome == Rejected ==> message == ReportFailed
    ensures !busy
  {
    var app := MountedApp(feed);
    app.SendReport();
    app.Resume(outcome, Resolved, feed);
    message, busy := app.notificationMessage, app.loading;
  }

  /** A search while an ingest is pending turns the spinner off, so Ingest
      can be pressed again before the first press has settled. */
  method SearchReenablesIngest(feed: seq<Article>) returns (busy: bool, pending: nat)
    ensures busy && pending == 2
  {
    var app := MountedApp(feed);
    app.RunIngest();
    app.Search(feed, Resolved);
    app.RunIngest();
    busy, pending := app.loading, |app.awaiting|;
  }

  /** With Search disabled while busy, a search during a pending ingest
      changes nothing and a second Ingest press is refused. */
  method SearchKeepsIngestBusy(feed: seq<Article>) returns (busy: bool, pending: nat)
    ensures busy && pending == 1
  {
    var app := MountedApp(feed);
    app.RunIngest();
    app.SearchGuarded(feed, Resolved);
    app.RunIngest();
    busy, pending := app.loading, |app.awaiting|;
  }

  /** Two toasts in a row, then the first hide fires: the second toast is
      hidden at once, its text kept, and its own hide still pending. */
  method EarlyHide(feed: seq<Article>) returns (visible: bool, message: string, pending: seq<nat>)
    ensures !visible && message == ReportFailed && pending == [2]
  {
    var app := MountedApp(feed);
    app.ShowNotif(IngestDone);
    app.ShowNotif(ReportFailed);
    app.Expire();
    visible, message, pending := app.showNotification, app.notificationMessage, app.hides;
  }

  /** With a `showNotif` that cancels the pending hide, two toasts in a row
      leave the second one visible with only its own hide pending. */
  method NoEarlyHide(feed: seq<Article>) returns (visible: bool, message: string, toasts: nat, pending: seq<nat>)
    ensures visible && message == ReportFailed && toasts == 2 && pending == [toasts]
  {
    var app := MountedApp(feed);
    app.ShowNotifCancelling(IngestDone);
    app.ShowNotifCancelling(ReportFailed);
    visible, message, toasts, pending := app.showNotification, app.notificationMessage, app.shown, app.hides;
  }

  /** As written, clicking the RVU chip twice clears the selection, but the
      second fetch still filters by RVU, so every article without that tag
      stays hidden. */
  method ChipTwiceAsWritten(feed: seq<Article>) returns (tag: string, shownArticles: seq<Article>)
    ensures tag == "" && shownArticles == Visible(feed, "", "RVU")
    ensures (exists a :: a in feed && !HasTag(a, "RVU")) ==> shownArticles != feed
  {
    var app := MountedApp(feed);
    app.HandleTagFilterAsWritten("RVU", feed, Resolved);
    app.HandleTagFilterAsWritten("RVU", feed, Resolved);
    tag, shownArticles := app.selectedTag, app.articles;
  }

  /** With the corrected handler, clicking the RVU chip twice returns to no
      selection and the whole feed. */
  method ChipTwice(feed: seq<Article>) returns (tag: string, shownArticles: seq<Article>)
    ensures tag == "" && shownArticles == feed
  {
    var app := MountedApp(feed);
    app.HandleTagFilter("RVU", feed, Resolved);
    app.HandleTagFilter("RVU", feed, Resolved);
    VisibleIdentity(feed);
    tag, shownArticles := app.selectedTag, app.articles;
  }

  /** As written, clicking `Legal` right after mounting highlights the chip
      but still lists all five built-in articles, four of which lack the
      tag. */
  method LegalClickAsWritten(now: int) returns (tag: string, shownArticles: seq<Article>)
    ensures tag == "Legal" && shownArticles == MockArticles(now)
    ensures shownArticles != Visible(MockArticles(now), "", tag)
  {
    var feed := MockArticles(now);
    var app := MountedApp(feed);
    app.HandleTagFilterAsWritten("Legal", feed, Resolved);
    VisibleIdentity(feed);
    MockTagLegal(now);
    tag, shownArticles := app.selectedTag, app.articles;
  }

  /** Clicking `Legal` right after mounting lists only the non-compete
      article. */
  method LegalClick(now: int) returns (tag: string, shownArticles: seq<Article>)
    ensures tag == "Legal" && shownArticles == [MockArticles(now)[1]]
  {
    var feed := MockArticles(now);
    var app := MountedApp(feed);
    app.HandleTagFilter("Legal", feed, Resolved);
    MockTagLegal(now);
    tag, shownArticles := app.selectedTag, app.articles;
  }

  /** As written, clicking `Legal` and then Clear empties the selection but
      leaves the list filtered by `Legal`: each fetch runs one step behind. */
  method ClearAfterLegalAsWritten(now: int) returns (tag: string, shownArticles: seq<Article>)
    ensures tag == "" && shownArticles == [MockArticles(now)[1]]
    ensures shownArticles != Visible(MockArticles(now), "", tag)
  {
    var feed := MockArticles(now);
    var app := MountedApp(feed);
    app.HandleTagFilterAsWritten("Legal", feed, Resolved);
    app.ClearAsWritten(feed, Resolved);
    MockTagLegal(now);
    VisibleIdentity(feed);
    tag, shownArticles := app.selectedTag, app.articles;
  }

  /** Clear after selecting any chip restores the whole feed. */
  method ClearAfterChip(tag: string, feed: seq<Article>) returns (selected: string, shownArticles: seq<Article>)
    requires tag in AvailableTags
    ensures selected == "" && shownArticles == feed
  {
    var app := MountedApp(feed);
    app.HandleTagFilter(tag, feed, Resolved);
    app.Clear(feed, Resolved);
    VisibleIdentity(feed);
    selected, shownArticles := app.selectedTag, app.articles;
  }
}
