/**
 * The health classification the game page and the navigation bar derive from
 * the player's radiation dose, and the warning banner condition.
 */
module Health {
  import opened Wrappers
  import opened Schema

  /** `getHealthStatus`' result: an icon, a status word and a colour class. */
  datatype HealthStatus = HealthStatus(icon: string, status: string, color: string)

  const Critical := HealthStatus("💀", "Kritisch", "text-red-600")
  const Sick := HealthStatus("🤒", "Krank", "text-yellow-600")
  const Healthy := HealthStatus("💚", "Gesund", "text-green-600")

  /** `getHealthStatus(dose)`: above 5 mSv critical, above 2 mSv sick, otherwise healthy. */
  function HealthFor(dose: real): HealthStatus {
    if dose > 5.0 then Critical
    else if dose > 2.0 then Sick
    else Healthy
  }

  /** `user?.dose_msv || 0`: no user reads as a dose of 0. */
  function DoseOf(user: Option<User>): real {
    if user.Some? then user.value.doseMsv else 0.0
  }

  /** The status shown on the game page. */
  function PageHealth(user: Option<User>): HealthStatus {
    HealthFor(DoseOf(user))
  }

  /** The status bands: critical, sick and healthy split every dose between them. */
  lemma HealthBands(dose: real)
    ensures HealthFor(dose) == Critical <==> dose > 5.0
    ensures HealthFor(dose) == Sick <==> 2.0 < dose <= 5.0
    ensures HealthFor(dose) == Healthy <==> dose <= 2.0
  {
    assert Critical != Sick && Critical != Healthy && Sick != Healthy;
  }

  /** The status depends on the dose alone: two users with the same dose get the same status, whatever their points. */
  lemma HealthIgnoresKnowledge(u: User, v: User)
    requires u.doseMsv == v.doseMsv
    ensures PageHealth(Some(u)) == PageHealth(Some(v))
  {
  }

  /** A higher dose never looks healthier. */
  function Severity(h: HealthStatus): nat {
    if h == Critical then 2 else if h == Sick then 1 else 0
  }

  lemma HealthMonotone(d: real, e: real)
    requires d <= e
    ensures Severity(HealthFor(d)) <= Severity(HealthFor(e))
  {
    assert Critical != Sick && Critical != Healthy && Sick != Healthy;
  }

  /** The navigation bar's `getHealthIcon`, with the same thresholds. */
  function NavigationIcon(dose: real): string {
    if dose > 5.0 then "💀" else if dose > 2.0 then "🤒" else "💚"
  }

  /** The navigation icon is the icon of the game page's status for the same dose. */
  lemma NavigationAgrees(dose: real)
    ensures NavigationIcon(dose) == HealthFor(dose).icon
  {
  }

  /** The health warning banner: none, the sick warning or the critical warning. */
  datatype Banner = NoBanner | SickWarning | CriticalWarning

  /** `user && user.dose_msv > 2`, then the critical wording above 5. */
  function BannerFor(user: Option<User>): Banner {
    if user.Some? && user.value.doseMsv > 2.0 then
      if user.value.doseMsv > 5.0 then CriticalWarning else SickWarning
    else NoBanner
  }

  /** With a user, the banner shows exactly when the status is not healthy, and is critical exactly when the status is. */
  lemma BannerMatchesStatus(user: Option<User>)
    ensures BannerFor(user) != NoBanner <==> user.Some? && PageHealth(user) != Healthy
    ensures BannerFor(user) == CriticalWarning <==> user.Some? && PageHealth(user) == Critical
  {
    HealthBands(DoseOf(user));
  }
}
