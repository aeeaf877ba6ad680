/** The fish-boxes-received page: the boxes on hand, the suppliers to choose from, the receipt
    editor whose submit always records a received box, and the page's totals and grade counts. */
module FishBoxesReceived {
  import opened Seqs
  import opened Clock
  import opened Ledger
  import opened DataStore
  import opened FishBoxesSent

  /** `suppliers` */
  function Suppliers(parties: seq<Party>): seq<Party>
  {
    Filter(parties, (q: Party) => q.partyType == Supplier)
  }

  /** The supplier list is exactly the parties of type supplier, in stored order. */
  lemma SuppliersSpec(parties: seq<Party>)
    ensures forall q :: q in Suppliers(parties) <==> q in parties && q.partyType == Supplier
    ensures IsSubsequence(Suppliers(parties), parties)
  {
    forall q | q in parties && q.partyType == Supplier
      ensures q in Suppliers(parties)
    {
      var i :| 0 <= i < |parties| && parties[i] == q;
    }
    FilterIsSubsequence(parties, (q: Party) => q.partyType == Supplier);
  }

  // ---------------------------------------------------------------------------------------
  // The receipt editor.

  /** The receipt form; `supplierId` is `""` while no supplier is chosen. */
  datatype ReceiptForm = ReceiptForm(
    boxNumber: string, fishType: string, weight: real, grade: Grade, supplierId: string, date: Timestamp)

  /** The form as it opens: empty, grade A, dated today. */
  function EmptyReceipt(today: Timestamp): ReceiptForm
  {
    ReceiptForm("", "", 0.0, A, "", today)
  }

  /** `handleEdit`: the form is filled from the box, a missing supplier becoming `""`. */
  function ReceiptFormOf(b: FishBox): ReceiptForm
  {
    ReceiptForm(b.boxNumber, b.fishType, b.weight, b.grade, b.supplierId.GetOr(""), b.date)
  }

  /** `{ ...formData, status: 'received' }` as the partial record passed to `updateFishBox`. */
  function ReceiptPatch(f: ReceiptForm): FishBoxPatch
  {
    FishBoxPatch(None, Some(f.boxNumber), Some(f.fishType), Some(f.weight), Some(f.grade),
                 Some(f.supplierId), None, Some(Received), Some(f.date))
  }

  /** `{ ...formData, status: 'received' }` as the box passed to `addFishBox`; it has no customer. */
  function NewReceipt(f: ReceiptForm): FishBox
  {
    FishBox("", f.boxNumber, f.fishType, f.weight, f.grade, Some(f.supplierId), None, Received, f.date)
  }

  /** Saving a form over a box gives it the form's fields and the status received, whatever its
      status was, and keeps its identifier and customer. */
  lemma SaveReceiptSpec(b: FishBox, f: ReceiptForm)
    ensures ReceiptFormOf(MergeFishBox(b, ReceiptPatch(f))) == f
    ensures MergeFishBox(b, ReceiptPatch(f)).status == Received
    ensures MergeFishBox(b, ReceiptPatch(f)).id == b.id
    ensures MergeFishBox(b, ReceiptPatch(f)).customerId == b.customerId
  {
  }

  /** Saving a box's own form unchanged marks it received and records a missing supplier as `""`;
      nothing else about it changes. An in-stock box thus becomes a received one. */
  lemma EditUnchangedMarksReceived(b: FishBox)
    ensures MergeFishBox(b, ReceiptPatch(ReceiptFormOf(b)))
         == b.(status := Received, supplierId := Some(b.supplierId.GetOr("")))
  {
  }

  /** A new receipt carries the form's fields, is received and is on hand. */
  lemma NewReceiptSpec(f: ReceiptForm, newId: string)
    ensures ReceiptFormOf(NewReceipt(f).(id := newId)) == f
    ensures NewReceipt(f).(id := newId).status == Received
    ensures IsOnHand(NewReceipt(f).(id := newId))
  {
  }

  /** The receipt dialog: whether it is open, the box being edited if any, and the form. */
  class ReceiptEditor {
    var open: bool
    var editing: Option<FishBox>
    var form: ReceiptForm

    constructor (today: Timestamp)
      ensures !open && editing == None && form == EmptyReceipt(today)
    {
      open, editing, form := false, None, EmptyReceipt(today);
    }

    /** "Add Received Box": the dialog opens as it stands. */
    method OpenNew()
      modifies this
      ensures open && editing == old(editing) && form == old(form)
    {
      open := true;
    }

    /** `handleEdit` */
    method Edit(b: FishBox)
      modifies this
      ensures open && editing == Some(b) && form == ReceiptFormOf(b)
    {
      editing := Some(b);
      form := ReceiptFormOf(b);
      open := true;
    }

    /** `handleCloseModal` */
    method Close(today: Timestamp)
      modifies this
      ensures !open && editing == None && form == EmptyReceipt(today)
    {
      open, editing, form := false, None, EmptyReceipt(today);
    }

    /** `handleSubmit`: while a box is being edited every box with its identifier gets the form
        and the status received; otherwise the form is added as a received box. Then the dialog
        closes. Nothing else in the store changes. */
    method Submit(store: Store, newId: string, today: Timestamp)
      modifies this, store
      ensures old(editing).Some? ==>
        store.fishBoxes == UpdateById(old(store.fishBoxes), FishBoxId, old(editing).value.id, MergeFishBox, ReceiptPatch(old(form)))
      ensures old(editing).None? ==>
        store.fishBoxes == old(store.fishBoxes) + [NewReceipt(old(form)).(id := newId)]
      ensures store.customers == old(store.customers) && store.parties == old(store.parties)
      ensures store.products == old(store.products) && store.sales == old(store.sales)
      ensures store.purchases == old(store.purchases)
      ensures !open && editing == None && form == EmptyReceipt(today)
    {
      if editing.Some? {
        store.UpdateFishBox(editing.value.id, ReceiptPatch(form));
      } else {
        store.AddFishBox(NewReceipt(form), newId);
      }
      Close(today);
    }
  }

  /** Saving a form over a box on hand keeps it on hand, so the page's count does not change. */
  lemma SaveKeepsOnHandCount(boxes: seq<FishBox>, k: int, f: ReceiptForm)
    requires UniqueIds(boxes, FishBoxId)
    requires 0 <= k < |boxes|
    requires boxes[k].status.OnHand()
    ensures var r := UpdateById(boxes, FishBoxId, boxes[k].id, MergeFishBox, ReceiptPatch(f));
      && r == boxes[k := MergeFishBox(boxes[k], ReceiptPatch(f))]
      && |OnHandBoxes(r)| == |OnHandBoxes(boxes)|
  {
    UpdateOneBox(boxes, k, ReceiptPatch(f));
    FilterReplaceCount(boxes, k, MergeFishBox(boxes[k], ReceiptPatch(f)), IsOnHand);
  }

  // ---------------------------------------------------------------------------------------
  // Totals and grades.

  /** `totalWeight` */
  function ReceivedWeight(boxes: seq<FishBox>): real
  {
    Sum(OnHandBoxes(boxes), BoxWeight)
  }

  /** The "received today" count. */
  function TodayReceived(boxes: seq<FishBox>, now: Timestamp): nat
  {
    |DatedOn(OnHandBoxes(boxes), now)|
  }

  /** The weight on hand adds up the boxes on hand only: it is not negative when no weight is, a
      box recorded as sent leaves it unchanged, and a box recorded on hand adds its weight. */
  lemma ReceivedWeightSpec(boxes: seq<FishBox>, b: FishBox)
    ensures (forall x :: x in boxes ==> x.weight >= 0.0) ==> ReceivedWeight(boxes) >= 0.0
    ensures b.status == Sent ==> ReceivedWeight(boxes + [b]) == ReceivedWeight(boxes)
    ensures b.status.OnHand() ==> ReceivedWeight(boxes + [b]) == ReceivedWeight(boxes) + b.weight
  {
    var held := OnHandBoxes(boxes);
    if forall x :: x in boxes ==> x.weight >= 0.0 {
      SumNonNegative(held, BoxWeight);
    }
    FilterAppend(boxes, [b], IsOnHand);
    assert [b][1..] == [];
    SumAppend(held, OnHandBoxes([b]), BoxWeight);
  }

  /** "Today" counts exactly the boxes on hand dated today, and never exceeds `totalBoxes`. */
  lemma ReceivedTotalsSpec(boxes: seq<FishBox>, now: Timestamp)
    ensures forall b :: b in DatedOn(OnHandBoxes(boxes), now) <==> b in boxes && b.status.OnHand() && Day(b.date) == Day(now)
    ensures TodayReceived(boxes, now) <= |OnHandBoxes(boxes)|
  {
    var held := OnHandBoxes(boxes);
    forall b | b in boxes && b.status.OnHand() && Day(b.date) == Day(now)
      ensures b in DatedOn(held, now)
    {
      var i :| 0 <= i < |boxes| && boxes[i] == b;
      var j :| 0 <= j < |held| && held[j] == b;
    }
  }

  function HasGrade(g: Grade): FishBox -> bool
  {
    (b: FishBox) => b.grade == g
  }

  /** The number of boxes of grade `g` (`gradeDistribution[g] || 0`). */
  function GradeCount(boxes: seq<FishBox>, g: Grade): nat
  {
    |Filter(boxes, HasGrade(g))|
  }

  /** Every box has one of the three grades, so the three counts add up to the number of boxes. */
  lemma {:induction false} GradesAddUp(boxes: seq<FishBox>)
    ensures GradeCount(boxes, A) + GradeCount(boxes, B) + GradeCount(boxes, C) == |boxes|
  {
    if boxes != [] {
      GradesAddUp(boxes[1..]);
    }
  }

  /** The `gradeDistribution` reduce: one pass over the boxes that bumps the count of each box's
      grade. */
  method TallyGrades(boxes: seq<FishBox>) returns (a: nat, b: nat, c: nat)
    ensures a == GradeCount(boxes, A) && b == GradeCount(boxes, B) && c == GradeCount(boxes, C)
    ensures a + b + c == |boxes|
  {
    a, b, c := 0, 0, 0;
    for i := 0 to |boxes|
      invariant a == GradeCount(boxes[..i], A)
      invariant b == GradeCount(boxes[..i], B)
      invariant c == GradeCount(boxes[..i], C)
    {
      assert boxes[..i + 1] == boxes[..i] + [boxes[i]];
      FilterAppend(boxes[..i], [boxes[i]], HasGrade(A));
      FilterAppend(boxes[..i], [boxes[i]], HasGrade(B));
      FilterAppend(boxes[..i], [boxes[i]], HasGrade(C));
      match boxes[i].grade {
        case A => a := a + 1;
        case B => b := b + 1;
        case C => c := c + 1;
      }
    }
    assert boxes[..|boxes|] == boxes;
    GradesAddUp(boxes);
  }

  /** `gradeDistribution`: the grade counts of the boxes on hand, which add up to `totalBoxes`. */
  method GradeDistribution(fishBoxes: seq<FishBox>) returns (a: nat, b: nat, c: nat)
    ensures var held := OnHandBoxes(fishBoxes);
      a == GradeCount(held, A) && b == GradeCount(held, B) && c == GradeCount(held, C)
    ensures a + b + c == |OnHandBoxes(fishBoxes)|
  {
    a, b, c := TallyGrades(OnHandBoxes(fishBoxes));
  }
}
