/** The fish-boxes-sent page: the boxes already shipped and the boxes still on hand, recording a
    new shipment, sending a box on hand to a customer, and the page's totals. A box's `date` is
    the instant its `YYYY-MM-DD` date denotes; "today" is passed in as that instant. */
module FishBoxesSent {
  import opened Seqs
  import opened Clock
  import opened Ledger
  import opened DataStore

  predicate IsSent(b: FishBox)
  {
    b.status == Sent
  }

  predicate IsOnHand(b: FishBox)
  {
    b.status.OnHand()
  }

  /** `sentBoxes` */
  function SentBoxes(boxes: seq<FishBox>): seq<FishBox>
  {
    Filter(boxes, IsSent)
  }

  /** The boxes received or in stock: `availableBoxes` here, `receivedBoxes` on the received page. */
  function OnHandBoxes(boxes: seq<FishBox>): seq<FishBox>
  {
    Filter(boxes, IsOnHand)
  }

  /** Every box is in exactly one of the two views, and the views hold nothing else. */
  lemma ViewsPartition(boxes: seq<FishBox>)
    ensures forall b :: b in boxes ==> (b in SentBoxes(boxes) <==> b !in OnHandBoxes(boxes))
    ensures forall b :: b in SentBoxes(boxes) ==> b in boxes && b.status == Sent
    ensures forall b :: b in OnHandBoxes(boxes) ==> b in boxes && (b.status == Received || b.status == InStock)
    ensures |SentBoxes(boxes)| + |OnHandBoxes(boxes)| == |boxes|
  {
    forall b | b in boxes
      ensures b in SentBoxes(boxes) <==> b !in OnHandBoxes(boxes)
    {
      var i :| 0 <= i < |boxes| && boxes[i] == b;
    }
    FilterSplitCount(boxes, IsSent, IsOnHand);
  }

  function BoxWeight(b: FishBox): real { b.weight }

  /** The boxes whose date is the calendar day of `now` (`toDateString()` compared). */
  function DatedOn(boxes: seq<FishBox>, now: Timestamp): seq<FishBox>
  {
    Filter(boxes, (b: FishBox) => Day(b.date) == Day(now))
  }

  /** `totalSent` */
  function TotalSent(boxes: seq<FishBox>): nat
  {
    |SentBoxes(boxes)|
  }

  /** `totalWeight` */
  function SentWeight(boxes: seq<FishBox>): real
  {
    Sum(SentBoxes(boxes), BoxWeight)
  }

  /** `todaySent` */
  function TodaySent(boxes: seq<FishBox>, now: Timestamp): nat
  {
    |DatedOn(SentBoxes(boxes), now)|
  }

  /** "Today" counts exactly the sent boxes dated today, so it never exceeds the boxes sent; with
      weights that are not negative the weight sent is not negative either. */
  lemma SentTotalsSpec(boxes: seq<FishBox>, now: Timestamp)
    ensures forall b :: b in DatedOn(SentBoxes(boxes), now) <==> b in boxes && b.status == Sent && Day(b.date) == Day(now)
    ensures TodaySent(boxes, now) <= TotalSent(boxes)
    ensures (forall b :: b in boxes ==> b.weight >= 0.0) ==> SentWeight(boxes) >= 0.0
  {
    var sent := SentBoxes(boxes);
    forall b | b in boxes && b.status == Sent && Day(b.date) == Day(now)
      ensures b in DatedOn(sent, now)
    {
      var i :| 0 <= i < |boxes| && boxes[i] == b;
      var j :| 0 <= j < |sent| && sent[j] == b;
    }
    if forall b :: b in boxes ==> b.weight >= 0.0 {
      SumNonNegative(sent, BoxWeight);
    }
  }

  // ---------------------------------------------------------------------------------------
  // Recording a shipment.

  /** The shipment form; `customerId` is the selected customer, `""` while none is chosen. */
  datatype ShipmentForm = ShipmentForm(
    boxNumber: string, fishType: string, weight: real, grade: Grade, customerId: string, date: Timestamp)

  /** The form as it opens: empty, grade A, dated today. */
  function EmptyShipment(today: Timestamp): ShipmentForm
  {
    ShipmentForm("", "", 0.0, A, "", today)
  }

  /** `{ ...formData, status: 'sent' }`, before the store gives it an identifier; it has no supplier. */
  function ShipmentOf(f: ShipmentForm): FishBox
  {
    FishBox("", f.boxNumber, f.fishType, f.weight, f.grade, None, Some(f.customerId), Sent, f.date)
  }

  /** Recording a shipment adds one sent box carrying the form's fields: the sent view gains it at
      its end with its weight, and the boxes on hand are as they were. */
  lemma RecordShipmentSpec(boxes: seq<FishBox>, f: ShipmentForm, newId: string)
    ensures var b := ShipmentOf(f).(id := newId);
      && SentBoxes(boxes + [b]) == SentBoxes(boxes) + [b]
      && OnHandBoxes(boxes + [b]) == OnHandBoxes(boxes)
      && TotalSent(boxes + [b]) == TotalSent(boxes) + 1
      && SentWeight(boxes + [b]) == SentWeight(boxes) + f.weight
      && b.customerId == Some(f.customerId) && b.date == f.date
  {
    var b := ShipmentOf(f).(id := newId);
    FilterAppend(boxes, [b], IsSent);
    FilterAppend(boxes, [b], IsOnHand);
    assert [b][1..] == [];
    SumAppend(SentBoxes(boxes), [b], BoxWeight);
  }

  /** The shipment dialog: whether it is open and the form's fields. */
  class ShipmentEditor {
    var open: bool
    var form: ShipmentForm

    constructor (today: Timestamp)
      ensures !open && form == EmptyShipment(today)
    {
      open, form := false, EmptyShipment(today);
    }

    /** "Record Shipment": the dialog opens. */
    method OpenNew()
      modifies this
      ensures open && form == old(form)
    {
      open := true;
    }

    /** `handleCloseModal` */
    method Close(today: Timestamp)
      modifies this
      ensures !open && form == EmptyShipment(today)
    {
      open, form := false, EmptyShipment(today);
    }

    /** `handleSubmit`: the form is added as a sent box and the dialog closes. */
    method Submit(store: Store, newId: string, today: Timestamp)
      modifies this, store
      ensures store.fishBoxes == old(store.fishBoxes) + [ShipmentOf(old(form)).(id := newId)]
      ensures store.customers == old(store.customers) && store.parties == old(store.parties)
      ensures store.products == old(store.products) && store.sales == old(store.sales)
      ensures store.purchases == old(store.purchases)
      ensures !open && form == EmptyShipment(today)
    {
      store.AddFishBox(ShipmentOf(form), newId);
      Close(today);
    }
  }

  // ---------------------------------------------------------------------------------------
  // Sending a box on hand.

  /** The partial record `handleSendExistingBox` passes: customer, status and date only. */
  function SendPatch(customerId: string, today: Timestamp): FishBoxPatch
  {
    FishBoxPatch(None, None, None, None, None, None, Some(customerId), Some(Sent), Some(today))
  }

  /** `handleSendExistingBox` */
  method SendExistingBox(store: Store, boxId: string, customerId: string, today: Timestamp)
    modifies store
    ensures store.fishBoxes == UpdateById(old(store.fishBoxes), FishBoxId, boxId, MergeFishBox, SendPatch(customerId, today))
    ensures store.customers == old(store.customers) && store.parties == old(store.parties)
    ensures store.products == old(store.products) && store.sales == old(store.sales)
    ensures store.purchases == old(store.purchases)
  {
    store.UpdateFishBox(boxId, SendPatch(customerId, today));
  }

  /** The "Send to Customer..." selector: choosing a customer sends the box; the blank choice
      does nothing. */
  method ChooseCustomer(store: Store, boxId: string, choice: string, today: Timestamp)
    modifies store
    ensures choice != "" ==>
      store.fishBoxes == UpdateById(old(store.fishBoxes), FishBoxId, boxId, MergeFishBox, SendPatch(choice, today))
    ensures choice == "" ==> store.fishBoxes == old(store.fishBoxes)
    ensures store.customers == old(store.customers) && store.parties == old(store.parties)
    ensures store.products == old(store.products) && store.sales == old(store.sales)
    ensures store.purchases == old(store.purchases)
  {
    if choice != "" {
      SendExistingBox(store, boxId, choice, today);
    }
  }

  /** Updating the one box with identifier `boxes[k].id` replaces exactly that box. */
  lemma UpdateOneBox(boxes: seq<FishBox>, k: int, p: FishBoxPatch)
    requires UniqueIds(boxes, FishBoxId)
    requires 0 <= k < |boxes|
    ensures UpdateById(boxes, FishBoxId, boxes[k].id, MergeFishBox, p) == boxes[k := MergeFishBox(boxes[k], p)]
  {
    var r := UpdateById(boxes, FishBoxId, boxes[k].id, MergeFishBox, p);
    forall j | 0 <= j < |boxes|
      ensures r[j] == boxes[k := MergeFishBox(boxes[k], p)][j]
    {
      if j < k {
        assert FishBoxId(boxes[j]) != FishBoxId(boxes[k]);
      } else if j > k {
        assert FishBoxId(boxes[k]) != FishBoxId(boxes[j]);
      }
    }
  }

  /** Sending a box on hand to customer `c` gives it that customer, the status sent and today's
      date, keeps its other fields and leaves every other box alone; it moves from the boxes on
      hand to the sent boxes. */
  lemma SendMovesBox(boxes: seq<FishBox>, k: int, c: string, today: Timestamp)
    requires UniqueIds(boxes, FishBoxId)
    requires 0 <= k < |boxes|
    requires boxes[k].status.OnHand()
    ensures var r := UpdateById(boxes, FishBoxId, boxes[k].id, MergeFishBox, SendPatch(c, today));
      && r == boxes[k := boxes[k].(customerId := Some(c), status := Sent, date := today)]
      && r[k] in SentBoxes(r) && r[k] !in OnHandBoxes(r)
      && TotalSent(r) == TotalSent(boxes) + 1
      && |OnHandBoxes(r)| == |OnHandBoxes(boxes)| - 1
  {
    var x := boxes[k].(customerId := Some(c), status := Sent, date := today);
    UpdateOneBox(boxes, k, SendPatch(c, today));
    var r := boxes[k := x];
    FilterReplaceCount(boxes, k, x, IsSent);
    FilterReplaceCount(boxes, k, x, IsOnHand);
    ViewsPartition(r);
  }

  // ---------------------------------------------------------------------------------------
  // The "available boxes" panel.

  const PanelSize := 6

  /** The boxes on hand shown in the panel: the first six. */
  function PanelBoxes(boxes: seq<FishBox>): seq<FishBox>
  {
    Take(OnHandBoxes(boxes), PanelSize)
  }

  /** The "+n more boxes available" note, shown only when more than six boxes are on hand. */
  function MoreNote(boxes: seq<FishBox>): Option<int>
  {
    if |OnHandBoxes(boxes)| > PanelSize then Some(|OnHandBoxes(boxes)| - PanelSize) else None
  }

  /** The panel shows at most six boxes, the first ones on hand, and the note counts exactly the
      ones left out. */
  lemma PanelSpec(boxes: seq<FishBox>)
    ensures |PanelBoxes(boxes)| <= PanelSize
    ensures PanelBoxes(boxes) <= OnHandBoxes(boxes)
    ensures MoreNote(boxes).Some? <==> |PanelBoxes(boxes)| < |OnHandBoxes(boxes)|
    ensures |PanelBoxes(boxes)| + MoreNote(boxes).GetOr(0) == |OnHandBoxes(boxes)|
    ensures MoreNote(boxes).Some? ==> MoreNote(boxes).value > 0
  {
  }
}
