/** The values of the friend-sharing consent layer. Identifiers are abstract numbers, zero
    standing for anything that is not a non-zero UUID; times are milliseconds. */
module FriendTypes {
  import opened Wrappers

  type Id = nat

  const MAX_GRANTS := 64
  const MAX_TRAJECTORY_POINTS := 500
  const MAX_SOURCE_TRAJECTORY_POINTS := 5000
  const MAX_GRANT_LIFETIME_MS := 8 * 60 * 60 * 1000
  const MAX_TIMESTAMP_MS := 253402300799999
  const MAX_INT64 := 0x7FFF_FFFF_FFFF_FFFF

  datatype Error = Invalid | NotAuthorized | Inactive | RevisionMismatch | OutOfOrder | NoCapacity | Exhausted

  datatype Binding = Binding(grant: Id, issuer: Id, session: Id, member: Id, recipient: Id)

  datatype SourceKey = SourceKey(source: Id, car: int)

  datatype Owner = Owner(issuer: Id, source: SourceKey)

  datatype Permissions = Permissions(location: bool, navigation: bool, battery: bool, trajectory: bool)

  datatype Alias = Alias(navigationRevision: int, text: string)

  datatype GrantSpec = GrantSpec(binding: Binding, source: SourceKey, permissions: Permissions, expires: int, alias: Option<Alias>)

  datatype Metadata = Metadata(binding: Binding, revision: int, consentStarted: int, expires: int, permissions: Permissions)

  datatype CarState = Driving | Parked | Charging | Asleep | Offline | Unknown | Unrecognised(text: string)

  datatype Motion = Motion(latitude: Option<real>, longitude: Option<real>, speed: Option<real>, heading: Option<real>, observedAt: Option<int>)

  datatype Navigation = Navigation(revision: int, destination: Option<string>, latitude: Option<real>, longitude: Option<real>,
                                   remainingKm: Option<real>, remainingMinutes: Option<real>, observedAt: int)

  datatype Battery = Battery(percentage: Option<real>, rangeKm: Option<real>, observedAt: int)

  datatype TrackPoint = TrackPoint(latitude: real, longitude: real, observedAt: int)

  /** What a vehicle source hands over; its navigation carries no destination text. */
  datatype SourceSnapshot = SourceSnapshot(source: SourceKey, state: CarState, motion: Option<Motion>, navigation: Option<Navigation>,
                                           battery: Option<Battery>, trajectory: seq<TrackPoint>)

  /** What a guest receives. */
  datatype Snapshot = Snapshot(binding: Binding, revision: int, sequence: int, serverTime: int, consentStarted: int, expires: int,
                               state: CarState, motion: Motion, navigation: Option<Navigation>, battery: Option<Battery>,
                               trajectory: Option<seq<TrackPoint>>)

  const NO_MOTION := Motion(None, None, None, None, None)

  predicate ValidTime(t: int) { 0 <= t <= MAX_TIMESTAMP_MS }

  predicate ValidBinding(b: Binding) {
    b.grant != 0 && b.issuer != 0 && b.session != 0 && b.member != 0 && b.recipient != 0
  }

  predicate ValidSource(s: SourceKey) { s.source != 0 && s.car >= 1 }

  predicate ValidAlias(a: Alias) { a.navigationRevision >= 1 && 0 < |a.text| <= 256 }
}
