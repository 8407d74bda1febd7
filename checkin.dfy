/** The arrivals terminal: one row per arrival of the day, with a payment chip,
    a "Force Paid" button offered to owners on unpaid arrivals, and a
    "Check In" button that only a paid arrival can use. */
module CheckIn {
  import opened Wrappers
  import Text

  datatype Arrival = Arrival(dogName: Option<string>, serviceType: string, isPaid: bool)

  /** What one arrival's row shows. */
  datatype ArrivalRow = ArrivalRow(
    avatar: string,
    name: string,
    chip: string,
    forcePaidShown: bool,
    checkInEnabled: bool)

  /** The panel: the info alert alone, or one row per arrival. */
  datatype ArrivalsPanel = NoArrivalsAlert | Rows(rows: seq<ArrivalRow>)

  /** `arrival.dog_name?.[0]?.toUpperCase() || 'D'`. */
  function AvatarText(dogName: Option<string>): (r: string)
    ensures dogName.Some? && dogName.value != "" ==> r == [Text.UpperChar(dogName.value[0])]
    ensures dogName.None? || dogName.value == "" ==> r == "D"
    ensures |r| == 1
  {
    if dogName.Some? && dogName.value != "" then [Text.UpperChar(dogName.value[0])] else "D"
  }

  /** `arrival.dog_name || 'VIP'`. */
  function NameText(dogName: Option<string>): (r: string)
    ensures r != ""
    ensures dogName.Some? && dogName.value != "" ==> r == dogName.value
    ensures dogName.None? || dogName.value == "" ==> r == "VIP"
  {
    if dogName.Some? && dogName.value != "" then dogName.value else "VIP"
  }

  function RowFor(a: Arrival, isOwner: bool): (r: ArrivalRow)
    ensures r.checkInEnabled <==> a.isPaid
    ensures r.forcePaidShown <==> isOwner && !a.isPaid
    ensures r.chip == (if a.isPaid then "Paid" else "Awaiting Payment")
    ensures r.avatar == AvatarText(a.dogName) && r.name == NameText(a.dogName)
  {
    ArrivalRow(
      AvatarText(a.dogName),
      NameText(a.dogName),
      if a.isPaid then "Paid" else "Awaiting Payment",
      isOwner && !a.isPaid,
      a.isPaid)
  }

  /** Force Paid and Check In are never both available on one row, and for an
      owner exactly one of them is. */
  lemma {:induction false} ActionsExclusive(a: Arrival, isOwner: bool)
    ensures !(RowFor(a, isOwner).forcePaidShown && RowFor(a, isOwner).checkInEnabled)
    ensures isOwner ==> RowFor(a, isOwner).forcePaidShown != RowFor(a, isOwner).checkInEnabled
    ensures !isOwner && !a.isPaid ==> !RowFor(a, isOwner).forcePaidShown && !RowFor(a, isOwner).checkInEnabled
  {
  }

  /** The chip reads "Paid" exactly when Check In is usable. */
  lemma {:induction false} ChipMatchesCheckIn(a: Arrival, isOwner: bool)
    ensures RowFor(a, isOwner).chip == "Paid" <==> RowFor(a, isOwner).checkInEnabled
  {
  }

  function RowsFor(arrivals: seq<Arrival>, isOwner: bool): (r: seq<ArrivalRow>)
    ensures |r| == |arrivals|
    ensures forall i :: 0 <= i < |arrivals| ==> r[i] == RowFor(arrivals[i], isOwner)
  {
    if arrivals == [] then [] else [RowFor(arrivals[0], isOwner)] + RowsFor(arrivals[1..], isOwner)
  }

  /** The dialog body: the alert for an empty list, else a row per arrival in order. */
  function Panel(arrivals: seq<Arrival>, isOwner: bool): (p: ArrivalsPanel)
    ensures p.NoArrivalsAlert? <==> arrivals == []
    ensures p.Rows? ==> p.rows == RowsFor(arrivals, isOwner)
  {
    if |arrivals| == 0 then NoArrivalsAlert else Rows(RowsFor(arrivals, isOwner))
  }

  /** Only paid arrivals can be checked in: the rows with Check In enabled are
      exactly those of paid arrivals. */
  lemma {:induction false} CheckInOnlyForPaid(arrivals: seq<Arrival>, isOwner: bool, i: int)
    requires 0 <= i < |arrivals|
    ensures Panel(arrivals, isOwner).Rows?
    ensures Panel(arrivals, isOwner).rows[i].checkInEnabled <==> arrivals[i].isPaid
    ensures Panel(arrivals, isOwner).rows[i].forcePaidShown <==> isOwner && !arrivals[i].isPaid
  {
  }
}
