/** Projecting a vehicle reading through a grant: permissions first, then consent time, then
    values. */
module FriendProjection {
  import opened Wrappers
  import opened FriendTypes

  /** An observation is refused when it lies in the future, and eligible from consent on. */
  function EligibleTime(observed: int, consent: int, now: int): Result<bool, Error> {
    if !ValidTime(observed) || observed > now then Err(Invalid) else Ok(observed >= consent)
  }

  predicate Bounded(value: Option<real>, minimum: real, maximum: real, includeMaximum: bool) {
    value.None? || (minimum <= value.value && (value.value < maximum || (includeMaximum && value.value == maximum)))
  }

  predicate NonNegative(value: Option<real>) { value.None? || value.value >= 0.0 }

  predicate ValidCoordinates(latitude: Option<real>, longitude: Option<real>) {
    if latitude.None? || longitude.None? then latitude.None? && longitude.None?
    else Bounded(latitude, -90.0, 90.0, true) && Bounded(longitude, -180.0, 180.0, true)
  }

  // ---------- Category by category ----------

  function ProjectMotion(motion: Option<Motion>, state: CarState, consent: int, now: int): Result<(CarState, Motion), Error> {
    match motion
    case None => Ok((Unknown, NO_MOTION))
    case Some(m) =>
      match m.observedAt
      case None => if m != NO_MOTION || state != Unknown then Err(Invalid) else Ok((Unknown, NO_MOTION))
      case Some(at) =>
        match EligibleTime(at, consent, now)
        case Err(e) => Err(e)
        case Ok(eligible) =>
          if !eligible then Ok((Unknown, NO_MOTION))
          else if !ValidCoordinates(m.latitude, m.longitude) || !Bounded(m.speed, 0.0, 324.0, true)
                  || !Bounded(m.heading, 0.0, 360.0, false) || state.Unrecognised? then Err(Invalid)
          else Ok((state, m))
  }

  function ProjectNavigation(navigation: Option<Navigation>, permitted: bool, alias: Option<Alias>, consent: int, now: int)
    : Result<Option<Navigation>, Error>
  {
    if !permitted || navigation.None? then Ok(None)
    else
      var n := navigation.value;
      match EligibleTime(n.observedAt, consent, now)
      case Err(e) => Err(e)
      case Ok(eligible) =>
        if !eligible then Ok(None)
        else if n.revision < 1 || !ValidCoordinates(n.latitude, n.longitude)
                || !NonNegative(n.remainingKm) || !NonNegative(n.remainingMinutes) then Err(Invalid)
        else Ok(Some(n.(destination := if alias.Some? && alias.value.navigationRevision == n.revision then Some(alias.value.text) else None)))
  }

  function ProjectBattery(battery: Option<Battery>, permitted: bool, consent: int, now: int): Result<Option<Battery>, Error> {
    if !permitted || battery.None? then Ok(None)
    else
      var b := battery.value;
      match EligibleTime(b.observedAt, consent, now)
      case Err(e) => Err(e)
      case Ok(eligible) =>
        if !eligible then Ok(None)
        else if !Bounded(b.percentage, 0.0, 100.0, true) || !NonNegative(b.rangeKm) then Err(Invalid)
        else Ok(Some(b))
  }

  /** The eligible points among those given, refused when one is invalid or not later than the
      eligible one before it. */
  function Eligible(points: seq<TrackPoint>, consent: int, now: int): Result<seq<TrackPoint>, Error> {
    if points == [] then Ok([])
    else
      match Eligible(points[..|points| - 1], consent, now)
      case Err(e) => Err(e)
      case Ok(before) =>
        var p := points[|points| - 1];
        match EligibleTime(p.observedAt, consent, now)
        case Err(e) => Err(e)
        case Ok(eligible) =>
          if !eligible then Ok(before)
          else if !ValidCoordinates(Some(p.latitude), Some(p.longitude)) then Err(Invalid)
          else if before != [] && p.observedAt <= before[|before| - 1].observedAt then Err(OutOfOrder)
          else Ok(before + [p])
  }

  function Latest(points: seq<TrackPoint>): seq<TrackPoint> {
    if |points| > MAX_TRAJECTORY_POINTS then points[|points| - MAX_TRAJECTORY_POINTS..] else points
  }

  function ProjectedTrack(points: seq<TrackPoint>, consent: int, now: int): Result<seq<TrackPoint>, Error> {
    if |points| > MAX_SOURCE_TRAJECTORY_POINTS then Err(Invalid)
    else
      match Eligible(points, consent, now)
      case Err(e) => Err(e)
      case Ok(eligible) => Ok(Latest(eligible))
  }

  function ProjectTrajectory(points: seq<TrackPoint>, permitted: bool, consent: int, now: int): Result<Option<seq<TrackPoint>>, Error> {
    if !permitted then Ok(None)
    else
      match ProjectedTrack(points, consent, now)
      case Err(e) => Err(e)
      case Ok(track) => Ok(Some(track))
  }

  /** The whole projection; the sequence number is filled in by the store. */
  function Projected(m: Metadata, alias: Option<Alias>, source: SourceSnapshot, now: int): Result<Snapshot, Error> {
    match ProjectMotion(source.motion, source.state, m.consentStarted, now)
    case Err(e) => Err(e)
    case Ok(motion) =>
      match ProjectNavigation(source.navigation, m.permissions.navigation, alias, m.consentStarted, now)
      case Err(e) => Err(e)
      case Ok(navigation) =>
        match ProjectBattery(source.battery, m.permissions.battery, m.consentStarted, now)
        case Err(e) => Err(e)
        case Ok(battery) =>
          match ProjectTrajectory(source.trajectory, m.permissions.trajectory, m.consentStarted, now)
          case Err(e) => Err(e)
          case Ok(trajectory) =>
            Ok(Snapshot(m.binding, m.revision, 0, now, m.consentStarted, m.expires, motion.0, motion.1, navigation, battery, trajectory))
  }

  // ---------- What a projection may contain ----------

  predicate InWindow(observed: int, consent: int, now: int) { consent <= observed <= now }

  /** Points of a trajectory are in the consent window and strictly later one after another. */
  ghost predicate GoodTrack(points: seq<TrackPoint>, consent: int, now: int) {
    && (forall i :: 0 <= i < |points| ==> InWindow(points[i].observedAt, consent, now))
    && (forall i, j :: 0 <= i < j < |points| ==> points[i].observedAt < points[j].observedAt)
  }

  /** Nothing outside the permissions of `m`, and nothing observed outside the window from
      consent to server time. Values without an observation time are withheld altogether. */
  ghost predicate WithinConsent(out: Snapshot, m: Metadata) {
    && out.binding == m.binding && out.revision == m.revision && out.consentStarted == m.consentStarted && out.expires == m.expires
    && (match out.motion.observedAt
        case None => out.motion == NO_MOTION && out.state == Unknown
        case Some(at) => InWindow(at, m.consentStarted, out.serverTime))
    && (out.navigation.Some? ==>
          m.permissions.navigation && InWindow(out.navigation.value.observedAt, m.consentStarted, out.serverTime)
          && out.navigation.value.revision >= 1)
    && (out.battery.Some? ==>
          m.permissions.battery && InWindow(out.battery.value.observedAt, m.consentStarted, out.serverTime))
    && (out.trajectory.Some? <==> m.permissions.trajectory)
    && (out.trajectory.Some? ==>
          |out.trajectory.value| <= MAX_TRAJECTORY_POINTS && GoodTrack(out.trajectory.value, m.consentStarted, out.serverTime))
  }

  lemma {:induction false} EligibleIsGoodTrack(points: seq<TrackPoint>, consent: int, now: int)
    ensures Eligible(points, consent, now).Ok? ==> GoodTrack(Eligible(points, consent, now).value, consent, now)
  {
    if points != [] {
      EligibleIsGoodTrack(points[..|points| - 1], consent, now);
    }
  }

  /** A projection never leaves the consent it was made under. */
  lemma ProjectionWithinConsent(m: Metadata, alias: Option<Alias>, source: SourceSnapshot, now: int)
    requires Projected(m, alias, source, now).Ok?
    ensures WithinConsent(Projected(m, alias, source, now).value, m)
    ensures Projected(m, alias, source, now).value.serverTime == now
  {
    EligibleIsGoodTrack(source.trajectory, m.consentStarted, now);
  }

  /** What is not permitted has no influence at all, not even on errors. */
  lemma DeniedDataHasNoInfluence(m: Metadata, alias: Option<Alias>, source: SourceSnapshot, other: SourceSnapshot, now: int)
    requires other.source == source.source && other.state == source.state && other.motion == source.motion
    requires m.permissions.navigation ==> other.navigation == source.navigation
    requires m.permissions.battery ==> other.battery == source.battery
    requires m.permissions.trajectory ==> other.trajectory == source.trajectory
    ensures Projected(m, alias, source, now) == Projected(m, alias, other, now)
  {
    assert ProjectTrajectory(source.trajectory, m.permissions.trajectory, m.consentStarted, now)
        == ProjectTrajectory(other.trajectory, m.permissions.trajectory, m.consentStarted, now);
  }

  // ---------- What a guest is shown ----------

  /** Neither in the future nor outside the range of timestamps. */
  predicate Past(at: int, now: int) { 0 <= at <= now && at <= 253402300799999 }

  predicate Place(latitude: Option<real>, longitude: Option<real>) {
    || (latitude.None? && longitude.None?)
    || (latitude.Some? && longitude.Some? && -90.0 <= latitude.value <= 90.0 && -180.0 <= longitude.value <= 180.0)
  }

  /** Motion without a time must say nothing; motion since consent must be plausible. */
  predicate MotionAcceptable(state: CarState, motion: Option<Motion>, consent: int, now: int) {
    motion.Some? ==>
      var m := motion.value;
      if m.observedAt.None? then
        m.latitude.None? && m.longitude.None? && m.speed.None? && m.heading.None? && state == Unknown
      else
        && Past(m.observedAt.value, now)
        && (consent <= m.observedAt.value ==>
              && Place(m.latitude, m.longitude) && !state.Unrecognised?
              && (m.speed.Some? ==> 0.0 <= m.speed.value <= 324.0) && (m.heading.Some? ==> 0.0 <= m.heading.value < 360.0))
  }

  predicate NavigationAcceptable(navigation: Option<Navigation>, consent: int, now: int) {
    navigation.Some? ==>
      var n := navigation.value;
      && Past(n.observedAt, now)
      && (consent <= n.observedAt ==>
            && n.revision >= 1 && Place(n.latitude, n.longitude)
            && (n.remainingKm.Some? ==> n.remainingKm.value >= 0.0) && (n.remainingMinutes.Some? ==> n.remainingMinutes.value >= 0.0))
  }

  predicate BatteryAcceptable(battery: Option<Battery>, consent: int, now: int) {
    battery.Some? ==>
      var b := battery.value;
      && Past(b.observedAt, now)
      && (consent <= b.observedAt ==>
            (b.percentage.Some? ==> 0.0 <= b.percentage.value <= 100.0) && (b.rangeKm.Some? ==> b.rangeKm.value >= 0.0))
  }

  predicate PointAcceptable(p: TrackPoint, consent: int, now: int) {
    Past(p.observedAt, now) && (consent <= p.observedAt ==> -90.0 <= p.latitude <= 90.0 && -180.0 <= p.longitude <= 180.0)
  }

  /** Points since consent come strictly later one after another. */
  ghost predicate TrackAcceptable(points: seq<TrackPoint>, consent: int, now: int) {
    && (forall i :: 0 <= i < |points| ==> PointAcceptable(points[i], consent, now))
    && (forall i, j :: 0 <= i < j < |points| && consent <= points[i].observedAt && consent <= points[j].observedAt ==>
                         points[i].observedAt < points[j].observedAt)
  }

  /** What a reading must be like for a grant to show it: everything permitted must be acceptable. */
  ghost predicate Acceptable(m: Metadata, source: SourceSnapshot, now: int) {
    && MotionAcceptable(source.state, source.motion, m.consentStarted, now)
    && (m.permissions.navigation ==> NavigationAcceptable(source.navigation, m.consentStarted, now))
    && (m.permissions.battery ==> BatteryAcceptable(source.battery, m.consentStarted, now))
    && (m.permissions.trajectory ==> |source.trajectory| <= 5000 && TrackAcceptable(source.trajectory, m.consentStarted, now))
  }

  /** The points since consent, in the order of their times, all of them or the latest five hundred. */
  ghost predicate ShowsTrack(shown: seq<TrackPoint>, points: seq<TrackPoint>, consent: int) {
    && |shown| <= 500
    && (forall i, j :: 0 <= i < j < |shown| ==> shown[i].observedAt < shown[j].observedAt)
    && (forall p :: p in shown ==> p in points && consent <= p.observedAt)
    && (forall p :: p in points && consent <= p.observedAt ==> p in shown || (|shown| == 500 && p.observedAt < shown[0].observedAt))
  }

  /** Everything permitted that was observed since consent is shown as it was read, the rest not at
      all. The destination is the alias, where there is one for this revision. */
  ghost predicate Shows(out: Snapshot, m: Metadata, alias: Option<Alias>, source: SourceSnapshot, now: int) {
    && out.binding == m.binding && out.revision == m.revision && out.serverTime == now
    && out.consentStarted == m.consentStarted && out.expires == m.expires
    && (if source.motion.Some? && source.motion.value.observedAt.Some? && m.consentStarted <= source.motion.value.observedAt.value
        then out.state == source.state && out.motion == source.motion.value
        else out.state == Unknown && out.motion == Motion(None, None, None, None, None))
    && (if m.permissions.navigation && source.navigation.Some? && m.consentStarted <= source.navigation.value.observedAt
        then out.navigation.Some? && ShowsRoute(out.navigation.value, source.navigation.value, alias)
        else out.navigation.None?)
    && out.battery == (if m.permissions.battery && source.battery.Some? && m.consentStarted <= source.battery.value.observedAt
                       then source.battery else None)
    && (if m.permissions.trajectory then out.trajectory.Some? && ShowsTrack(out.trajectory.value, source.trajectory, m.consentStarted)
        else out.trajectory.None?)
  }

  predicate ShowsRoute(shown: Navigation, n: Navigation, alias: Option<Alias>) {
    && shown.revision == n.revision && shown.latitude == n.latitude && shown.longitude == n.longitude
    && shown.remainingKm == n.remainingKm && shown.remainingMinutes == n.remainingMinutes && shown.observedAt == n.observedAt
    && (match alias
        case None => shown.destination.None?
        case Some(a) => shown.destination == if a.navigationRevision == n.revision then Some(a.text) else None)
  }

  /** The points since consent are exactly those kept while the track is acceptable. */
  lemma {:induction false} EligibleExactly(points: seq<TrackPoint>, consent: int, now: int)
    ensures Eligible(points, consent, now).Ok? <==> TrackAcceptable(points, consent, now)
    ensures Eligible(points, consent, now).Ok? ==>
              forall p :: p in Eligible(points, consent, now).value <==> p in points && consent <= p.observedAt
  {
    if points != [] {
      var before := points[..|points| - 1];
      var last := points[|points| - 1];
      EligibleExactly(before, consent, now);
      assert points == before + [last];
      if Eligible(before, consent, now).Ok? {
        EligibleIsGoodTrack(before, consent, now);
        LaterExactly(before, Eligible(before, consent, now).value, last, consent, now);
      }
    }
  }

  lemma LaterExactly(before: seq<TrackPoint>, kept: seq<TrackPoint>, last: TrackPoint, consent: int, now: int)
    requires TrackAcceptable(before, consent, now) && GoodTrack(kept, consent, now)
    requires forall p :: p in kept <==> p in before && consent <= p.observedAt
    ensures TrackAcceptable(before + [last], consent, now)
            <==> PointAcceptable(last, consent, now)
                 && (consent <= last.observedAt && kept != [] ==> kept[|kept| - 1].observedAt < last.observedAt)
  {
    hide PointAcceptable;
    var points := before + [last];
    if TrackAcceptable(points, consent, now) {
      assert points[|before|] == last;
      if consent <= last.observedAt && kept != [] {
        assert kept[|kept| - 1] in before;
        var i :| 0 <= i < |before| && before[i] == kept[|kept| - 1];
        assert points[i] == before[i];
      }
    }
    assert forall i :: 0 <= i < |before| ==> before[i] in kept || before[i].observedAt < consent;
  }

  lemma LatestShows(kept: seq<TrackPoint>, points: seq<TrackPoint>, consent: int, now: int)
    requires GoodTrack(kept, consent, now) && forall p :: p in kept <==> p in points && consent <= p.observedAt
    ensures ShowsTrack(Latest(kept), points, consent)
  {
    var shown := Latest(kept);
    assert forall k :: 0 <= k < |shown| ==> shown[k] in kept;
  }

  lemma MotionExactly(motion: Option<Motion>, state: CarState, consent: int, now: int)
    ensures var r := ProjectMotion(motion, state, consent, now);
            && (r.Ok? <==> MotionAcceptable(state, motion, consent, now))
            && (r.Ok? ==> r.value == if motion.Some? && motion.value.observedAt.Some? && consent <= motion.value.observedAt.value
                                     then (state, motion.value) else (Unknown, Motion(None, None, None, None, None)))
  {
  }

  lemma NavigationExactly(navigation: Option<Navigation>, alias: Option<Alias>, consent: int, now: int)
    ensures var r := ProjectNavigation(navigation, true, alias, consent, now);
            && (r.Ok? <==> NavigationAcceptable(navigation, consent, now))
            && (r.Ok? ==> if navigation.Some? && consent <= navigation.value.observedAt
                          then r.value.Some? && ShowsRoute(r.value.value, navigation.value, alias) else r.value.None?)
  {
  }

  lemma BatteryExactly(battery: Option<Battery>, consent: int, now: int)
    ensures var r := ProjectBattery(battery, true, consent, now);
            && (r.Ok? <==> BatteryAcceptable(battery, consent, now))
            && (r.Ok? ==> r.value == if battery.Some? && consent <= battery.value.observedAt then battery else None)
  {
  }

  lemma TrajectoryExactly(points: seq<TrackPoint>, consent: int, now: int)
    ensures var r := ProjectTrajectory(points, true, consent, now);
            && (r.Ok? <==> |points| <= 5000 && TrackAcceptable(points, consent, now))
            && (r.Ok? ==> r.value.Some? && ShowsTrack(r.value.value, points, consent))
  {
    hide TrackAcceptable, ShowsTrack, Latest, Eligible;
    EligibleExactly(points, consent, now);
    EligibleIsGoodTrack(points, consent, now);
    var kept := Eligible(points, consent, now);
    if kept.Ok? {
      LatestShows(kept.value, points, consent, now);
    }
  }

  /** Main result on projections: a reading is shown if and only if everything in it that is
      permitted is acceptable, and then all of that which was observed since consent. */
  lemma ProjectionIsExact(m: Metadata, alias: Option<Alias>, source: SourceSnapshot, now: int)
    ensures Projected(m, alias, source, now).Ok? <==> Acceptable(m, source, now)
    ensures Projected(m, alias, source, now).Ok? ==> Shows(Projected(m, alias, source, now).value, m, alias, source, now)
  {
    MotionExactly(source.motion, source.state, m.consentStarted, now);
    NavigationExactly(source.navigation, alias, m.consentStarted, now);
    BatteryExactly(source.battery, m.consentStarted, now);
    TrajectoryExactly(source.trajectory, m.consentStarted, now);
    DeniedIsNothing(m, alias, source, now);
    hide TrackAcceptable, ShowsTrack, ShowsRoute, ProjectTrajectory, ProjectMotion, ProjectBattery, ProjectNavigation,
      MotionAcceptable, NavigationAcceptable, BatteryAcceptable;
  }

  lemma DeniedIsNothing(m: Metadata, alias: Option<Alias>, source: SourceSnapshot, now: int)
    ensures ProjectNavigation(source.navigation, false, alias, m.consentStarted, now) == Ok(None)
    ensures ProjectBattery(source.battery, false, m.consentStarted, now) == Ok(None)
    ensures ProjectTrajectory(source.trajectory, false, m.consentStarted, now) == Ok(None)
  {
  }

  // ---------- The loop over trajectory points ----------

  method FilterTrajectory(points: seq<TrackPoint>, consent: int, now: int) returns (result: Result<seq<TrackPoint>, Error>)
    ensures result == ProjectedTrack(points, consent, now)
  {
    if |points| > MAX_SOURCE_TRAJECTORY_POINTS {
      return Err(Invalid);
    }
    var kept: seq<TrackPoint> := [];
    var previous: Option<int> := None;
    for i := 0 to |points|
      invariant Eligible(points[..i], consent, now) == Ok(kept)
      invariant previous == if kept == [] then None else Some(kept[|kept| - 1].observedAt)
    {
      var p := points[i];
      assert points[..i + 1][..i] == points[..i];
      if !ValidTime(p.observedAt) || p.observedAt > now {
        ErrorsPersist(points, i + 1, consent, now);
        return Err(Invalid);
      }
      if p.observedAt < consent {
        continue;
      }
      if !ValidCoordinates(Some(p.latitude), Some(p.longitude)) {
        ErrorsPersist(points, i + 1, consent, now);
        return Err(Invalid);
      }
      if previous.Some? && p.observedAt <= previous.value {
        ErrorsPersist(points, i + 1, consent, now);
        return Err(OutOfOrder);
      }
      previous := Some(p.observedAt);
      kept := kept + [p];
    }
    assert points[..|points|] == points;
    if |kept| > MAX_TRAJECTORY_POINTS {
      kept := kept[|kept| - MAX_TRAJECTORY_POINTS..];
    }
    return Ok(kept);
  }

  lemma {:induction false} ErrorsPersist(points: seq<TrackPoint>, i: nat, consent: int, now: int)
    requires i <= |points| && Eligible(points[..i], consent, now).Err?
    ensures Eligible(points, consent, now) == Eligible(points[..i], consent, now)
    decreases |points|
  {
    if i == |points| {
      assert points[..i] == points;
    } else {
      var rest := points[..|points| - 1];
      assert rest[..i] == points[..i];
      ErrorsPersist(rest, i, consent, now);
    }
  }

  /** The first point at fault decides the error: its order, if there is nothing else against it. */
  lemma FirstFaultExactly(points: seq<TrackPoint>, i: nat, consent: int, now: int)
    requires i < |points| && TrackAcceptable(points[..i], consent, now) && !TrackAcceptable(points[..i + 1], consent, now)
    ensures Eligible(points, consent, now) == Err(if PointAcceptable(points[i], consent, now) then OutOfOrder else Invalid)
  {
    hide TrackAcceptable;
    assert points[..i + 1][..i] == points[..i];
    EligibleExactly(points[..i], consent, now);
    EligibleExactly(points[..i + 1], consent, now);
    ErrorsPersist(points, i + 1, consent, now);
  }

  /** The projection as it is carried out: one category after another fills `out`. */
  method Project(m: Metadata, alias: Option<Alias>, source: SourceSnapshot, now: int) returns (result: Result<Snapshot, Error>)
    ensures result == Projected(m, alias, source, now)
    ensures result.Ok? <==> Acceptable(m, source, now)
    ensures result.Ok? ==> Shows(result.value, m, alias, source, now)
  {
    ProjectionIsExact(m, alias, source, now);
    hide Acceptable, Shows;
    var out := Snapshot(m.binding, m.revision, 0, now, m.consentStarted, m.expires, Unknown, NO_MOTION, None, None, None);
    var motion := ProjectMotion(source.motion, source.state, m.consentStarted, now);
    if motion.Err? {
      return Err(motion.error);
    }
    out := out.(state := motion.value.0, motion := motion.value.1);
    var navigation := ProjectNavigation(source.navigation, m.permissions.navigation, alias, m.consentStarted, now);
    if navigation.Err? {
      return Err(navigation.error);
    }
    out := out.(navigation := navigation.value);
    var battery := ProjectBattery(source.battery, m.permissions.battery, m.consentStarted, now);
    if battery.Err? {
      return Err(battery.error);
    }
    out := out.(battery := battery.value);
    if m.permissions.trajectory {
      var track := FilterTrajectory(source.trajectory, m.consentStarted, now);
      if track.Err? {
        return Err(track.error);
      }
      out := out.(trajectory := Some(track.value));
    }
    return Ok(out);
  }
}
