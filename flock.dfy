/** The current flock size, computed from the Flock ledger as a fold over
    every recorded event; there is no stored counter. */
module Flock {
  import opened Records
  import opened Text
  import opened Seqs

  /** The row is counted as birds added: its action mentions "Add". */
  predicate IsAdd(e: FlockChange)
  {
    Contains(e.action, "Add")
  }

  /** The row is counted as birds removed: its action mentions "Remove" and not "Add". */
  predicate IsRemove(e: FlockChange)
  {
    !Contains(e.action, "Add") && Contains(e.action, "Remove")
  }

  /** The row is counted at all. */
  predicate IsCounted(e: FlockChange)
  {
    IsAdd(e) || IsRemove(e)
  }

  /** What one ledger row does to the head count. */
  function Effect(e: FlockChange): int
  {
    if Contains(e.action, "Add") then e.quantity
    else if Contains(e.action, "Remove") then -e.quantity
    else 0
  }

  function Quantity(e: FlockChange): int { e.quantity }

  /** The flock size the ledger `entries` stands for. */
  function FlockSize(entries: seq<FlockChange>): int
  {
    SumBy(entries, Effect)
  }

  /** Birds added: the quantities of the rows counted as additions. */
  function AddedBirds(entries: seq<FlockChange>): int
  {
    SumBy(Filter(entries, IsAdd), Quantity)
  }

  /** Birds removed: the quantities of the rows counted as removals. */
  function RemovedBirds(entries: seq<FlockChange>): int
  {
    SumBy(Filter(entries, IsRemove), Quantity)
  }

  /** The dashboard's loop over the Flock ledger: start at 0, add the quantity
      of an "Add" row, else subtract that of a "Remove" row, else skip the row. */
  method CurrentFlockSize(flockData: seq<FlockChange>) returns (currentFlockSize: int)
    ensures currentFlockSize == FlockSize(flockData)
    ensures currentFlockSize == AddedBirds(flockData) - RemovedBirds(flockData)
    ensures flockData == [] ==> currentFlockSize == 0
  {
    currentFlockSize := 0;
    if flockData != [] {
      var index := 0;
      while index < |flockData|
        invariant 0 <= index <= |flockData|
        invariant currentFlockSize == FlockSize(flockData[..index])
      {
        var row := flockData[index];
        if Contains(row.action, "Add") {
          currentFlockSize := currentFlockSize + row.quantity;
        } else if Contains(row.action, "Remove") {
          currentFlockSize := currentFlockSize - row.quantity;
        }
        assert flockData[..index + 1] == flockData[..index] + [row];
        SumBySnoc(flockData[..index], row, Effect);
        index := index + 1;
      }
      assert flockData[..index] == flockData;
    }
    FlockSizeIsAddedMinusRemoved(flockData);
  }

  /** The fold equals the birds added minus the birds removed. */
  lemma {:induction false} FlockSizeIsAddedMinusRemoved(entries: seq<FlockChange>)
    ensures FlockSize(entries) == AddedBirds(entries) - RemovedBirds(entries)
  {
    if entries != [] {
      FlockSizeIsAddedMinusRemoved(entries[1..]);
    }
  }

  /** Rows whose action mentions neither "Add" nor "Remove" change nothing:
      dropping them leaves the flock size as it was. */
  lemma {:induction false} UncountedRowsIgnored(entries: seq<FlockChange>)
    ensures FlockSize(Filter(entries, IsCounted)) == FlockSize(entries)
  {
    if entries != [] {
      UncountedRowsIgnored(entries[1..]);
    }
  }

  /** The flock size does not depend on the order of the ledger's rows. */
  lemma FlockSizeIgnoresOrder(a: seq<FlockChange>, b: seq<FlockChange>)
    requires multiset(a) == multiset(b)
    ensures FlockSize(a) == FlockSize(b)
  {
    SumByPermutation(a, b, Effect);
  }

  /** Appending a row changes the flock size by that row's effect alone. */
  lemma AppendedRowEffect(entries: seq<FlockChange>, e: FlockChange)
    ensures FlockSize(entries + [e]) == FlockSize(entries) + Effect(e)
  {
    SumBySnoc(entries, e, Effect);
  }

  /** A row whose action mentions both words counts as an addition only. */
  lemma AddTakesPriority(entries: seq<FlockChange>, e: FlockChange)
    requires Contains(e.action, "Add") && Contains(e.action, "Remove")
    ensures FlockSize(entries + [e]) == FlockSize(entries) + e.quantity
  {
    AppendedRowEffect(entries, e);
  }

  /** The two labels of the flock form are each recognised, as the intended kind. */
  lemma ActionLabelsRecognised()
    ensures Contains(ActionLabel(AddBirds), "Add")
    ensures !Contains(ActionLabel(RemoveBirds), "Add")
    ensures Contains(ActionLabel(RemoveBirds), "Remove")
  {
    assert "Add" <= ActionLabel(AddBirds);
    assert "Remove" <= ActionLabel(RemoveBirds);
    assert 'A' !in ActionLabel(RemoveBirds);
    NotContainsWithoutHead(ActionLabel(RemoveBirds), "Add");
  }

  /** What a row of the flock form does, as the loop reads it: the chosen
      action's label and the quantity. */
  function FormChange(action: FlockAction, quantity: int): FlockChange
  {
    FlockChange(ActionLabel(action), quantity)
  }

  /** A row the flock form can write is never ignored: adding birds raises the
      flock size by exactly the quantity, removing birds lowers it by exactly the quantity. */
  lemma FormChangeCounted(entries: seq<FlockChange>, action: FlockAction, quantity: int)
    requires quantity >= 1
    ensures IsCounted(FormChange(action, quantity))
    ensures FlockSize(entries + [FormChange(action, quantity)])
         == FlockSize(entries) + (if action == AddBirds then quantity else -quantity)
    ensures FlockSize(entries + [FormChange(action, quantity)]) != FlockSize(entries)
  {
    ActionLabelsRecognised();
    AppendedRowEffect(entries, FormChange(action, quantity));
  }

  /** Nothing clamps the flock size: removing more birds than the ledger holds
      makes it negative. */
  lemma FlockSizeNotClamped(entries: seq<FlockChange>, quantity: int)
    requires quantity >= 1 && quantity > FlockSize(entries)
    ensures FlockSize(entries + [FormChange(RemoveBirds, quantity)]) < 0
  {
    FormChangeCounted(entries, RemoveBirds, quantity);
  }

  /** Ten birds added, then five, then three removed leave twelve. */
  lemma ExampleLedger()
    ensures FlockSize([FormChange(AddBirds, 10), FormChange(AddBirds, 5), FormChange(RemoveBirds, 3)]) == 12
  {
    var e1, e2, e3 := FormChange(AddBirds, 10), FormChange(AddBirds, 5), FormChange(RemoveBirds, 3);
    FormChangeCounted([], AddBirds, 10);
    FormChangeCounted([e1], AddBirds, 5);
    FormChangeCounted([e1, e2], RemoveBirds, 3);
    assert [e1] == [] + [e1];
    assert [e1, e2] == [e1] + [e2];
    assert [e1, e2, e3] == [e1, e2] + [e3];
  }

  /** A row whose action mentions neither word is skipped whatever its quantity. */
  lemma ExampleSkippedRow(q: int)
    ensures FlockSize([FormChange(AddBirds, 5), FlockChange("Moved to new coop", q)]) == 5
  {
    var moved := FlockChange("Moved to new coop", q);
    MovedNotCounted(q);
    FormChangeCounted([], AddBirds, 5);
    AppendedRowEffect([FormChange(AddBirds, 5)], moved);
    assert [FormChange(AddBirds, 5)] == [] + [FormChange(AddBirds, 5)];
  }

  /** "Moved to new coop" mentions neither "Add" nor "Remove". */
  lemma MovedNotCounted(q: int)
    ensures !IsCounted(FlockChange("Moved to new coop", q))
  {
    var action := "Moved to new coop";
    assert 'A' !in action && 'R' !in action;
    NotContainsWithoutHead(action, "Add");
    NotContainsWithoutHead(action, "Remove");
  }
}
