/** Best-effort extraction of one file's `Total`. Reading and deserialising
    the file are outside the model; what remains is the policy applied to
    their outcome. */
module Extraction {
  import opened Optional

  /** The one field a sales file is read for. Money is exact (`real`). */
  datatype SalesData = SalesData(total: real)

  /** What reading and deserialising one file produced: an exception from
      either step, or the deserialiser's (nullable) result. */
  datatype ReadOutcome = Threw | Deserialized(data: Option<SalesData>)

  /** The file's total. Never a failure: an exception or a null result
      counts as zero. */
  function ReadSalesJsonTotal(o: ReadOutcome): (r: real)
    ensures o.Threw? ==> r == 0.0
    ensures o == Deserialized(None) ==> r == 0.0
    ensures forall d :: o == Deserialized(Some(d)) ==> r == d.total
  {
    match o
    case Threw => 0.0
    case Deserialized(data) => if data.Some? then data.value.total else 0.0
  }

  /** A file counts as unusable when extraction fell back to zero for it. */
  predicate Unusable(o: ReadOutcome) {
    o.Threw? || o.data.None?
  }
}
