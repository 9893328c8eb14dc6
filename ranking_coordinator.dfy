/**
 * RankingCoordinator of the SystemUI notification pipeline: it files every
 * entry under the Alerting or the Silent section by its priority, and drops
 * entries before grouping when their app is suspended or when Do Not Disturb
 * hides them from the current display (ambient display while dozing, the
 * notification list otherwise).
 *
 * The high-priority provider is a predicate parameter and the status bar's
 * dozing state a boolean parameter.
 */
module RankingCoordinator {
  import opened JavaTypes

  /** What the coordinator reads of a notification entry and its ranking. */
  datatype Entry = Entry(
    key: string,
    suspended: bool,              // getRanking().isSuspended()
    suppressAmbient: bool,        // shouldSuppressAmbient()
    suppressNotificationList: bool) // shouldSuppressNotificationList()

  datatype Section = Alerting | Silent

  /** NotifSection.isInSection for the two sections. */
  predicate IsInSection(section: Section, isHighPriority: Entry -> bool, entry: Entry) {
    match section
    case Alerting => isHighPriority(entry)
    case Silent => !isHighPriority(entry)
  }

  /** The section an entry is filed under. */
  function SectionOf(isHighPriority: Entry -> bool, entry: Entry): (s: Section)
    ensures IsInSection(s, isHighPriority, entry)
    ensures forall other: Section :: IsInSection(other, isHighPriority, entry) ==> other == s
    ensures s == Alerting <==> isHighPriority(entry)
  {
    if isHighPriority(entry) then Alerting else Silent
  }

  /** Every entry is in exactly one of the two sections, whatever the provider says. */
  lemma SectionsPartition(isHighPriority: Entry -> bool, entry: Entry)
    ensures IsInSection(Alerting, isHighPriority, entry) != IsInSection(Silent, isHighPriority, entry)
  {
  }

  datatype Filter = SuspendedFilter | DozingFilter

  /** NotifFilter.shouldFilterOut for the two filters; `now` is not consulted. */
  predicate ShouldFilterOut(filter: Filter, dozing: bool, entry: Entry, now: Int64) {
    match filter
    case SuspendedFilter => entry.suspended
    case DozingFilter =>
      if dozing && entry.suppressAmbient then true
      else !dozing && entry.suppressNotificationList
  }

  /** The dozing filter drops an entry iff DND hides it from the display in use. */
  lemma DozingFilterHides(dozing: bool, entry: Entry, now: Int64)
    ensures ShouldFilterOut(DozingFilter, dozing, entry, now)
            <==> (dozing && entry.suppressAmbient) || (!dozing && entry.suppressNotificationList)
    ensures dozing ==> (ShouldFilterOut(DozingFilter, dozing, entry, now) <==> entry.suppressAmbient)
    ensures !dozing ==> (ShouldFilterOut(DozingFilter, dozing, entry, now) <==> entry.suppressNotificationList)
  {
  }

  datatype Listener = DozingListener

  /** The registrations with the notification pipeline and the status bar state controller. */
  datatype Pipeline = Pipeline(preGroupFilters: seq<Filter>, stateListeners: seq<Listener>)

  /** attach: listens for dozing changes, then adds the suspended filter and after it the dozing filter. */
  function Attach(pipeline: Pipeline): (r: Pipeline)
    ensures r.preGroupFilters == pipeline.preGroupFilters + [SuspendedFilter, DozingFilter]
    ensures r.stateListeners == pipeline.stateListeners + [DozingListener]
  {
    Pipeline(pipeline.preGroupFilters + [SuspendedFilter, DozingFilter], pipeline.stateListeners + [DozingListener])
  }

  /** An entry passes a list of pre-group filters when none of them filters it out. */
  predicate Passes(filters: seq<Filter>, dozing: bool, entry: Entry, now: Int64) {
    forall k :: 0 <= k < |filters| ==> !ShouldFilterOut(filters[k], dozing, entry, now)
  }

  /**
   * Once attached, an entry gets past the filters already there and the two
   * added ones iff it passed the old ones, its app is not suspended and DND
   * does not hide it from the current display.
   */
  lemma AttachedFilters(pipeline: Pipeline, dozing: bool, entry: Entry, now: Int64)
    ensures var filters := Attach(pipeline).preGroupFilters;
            && filters[|pipeline.preGroupFilters|] == SuspendedFilter
            && filters[|pipeline.preGroupFilters| + 1] == DozingFilter
            && (Passes(filters, dozing, entry, now)
                <==> Passes(pipeline.preGroupFilters, dozing, entry, now)
                     && !entry.suspended
                     && !(if dozing then entry.suppressAmbient else entry.suppressNotificationList))
  {
    var before := pipeline.preGroupFilters;
    var filters := Attach(pipeline).preGroupFilters;
    var n := |before|;
    if Passes(filters, dozing, entry, now) {
      assert !ShouldFilterOut(filters[n], dozing, entry, now);
      assert !ShouldFilterOut(filters[n + 1], dozing, entry, now);
      assert forall k :: 0 <= k < n ==> filters[k] == before[k];
    }
  }

  /** onDozingChanged: the filters whose pipeline results are invalidated, whatever the new state. */
  function OnDozingChanged(isDozing: bool): (invalidated: seq<Filter>)
    ensures invalidated == [DozingFilter]
  {
    [DozingFilter]
  }

  /**
   * Invalidating exactly the dozing filter on a dozing change is what is
   * needed: the suspended filter's verdict never depends on the dozing state,
   * and the dozing filter's can change either way.
   */
  lemma DozingChangeInvalidatesWhatDepends(isDozing: bool)
    ensures forall entry: Entry, now: Int64 ::
              ShouldFilterOut(SuspendedFilter, isDozing, entry, now) == ShouldFilterOut(SuspendedFilter, !isDozing, entry, now)
    ensures exists entry: Entry ::
              ShouldFilterOut(DozingFilter, isDozing, entry, 0) != ShouldFilterOut(DozingFilter, !isDozing, entry, 0)
    ensures forall f :: f in OnDozingChanged(isDozing) <==>
              exists entry: Entry :: ShouldFilterOut(f, isDozing, entry, 0) != ShouldFilterOut(f, !isDozing, entry, 0)
  {
    var ambientOnly := Entry("", false, true, false);
    assert ShouldFilterOut(DozingFilter, isDozing, ambientOnly, 0) != ShouldFilterOut(DozingFilter, !isDozing, ambientOnly, 0);
    forall f: Filter
      ensures f in OnDozingChanged(isDozing) <==>
              exists entry: Entry :: ShouldFilterOut(f, isDozing, entry, 0) != ShouldFilterOut(f, !isDozing, entry, 0)
    {
      if f == DozingFilter {
        assert ShouldFilterOut(f, isDozing, ambientOnly, 0) != ShouldFilterOut(f, !isDozing, ambientOnly, 0);
      }
    }
  }
}
