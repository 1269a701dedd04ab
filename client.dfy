/**
 * What the two front-end pages share when they talk to the backend: how a
 * number travels in a JSON body, and which text an alert shows when a
 * request fails.
 */
module Client {
  import opened Numbers
  import opened Sorting
  import opened Inventory

  /** How `JSON.stringify` sends a number: NaN becomes null. */
  function JsonNumber(n: JsNumber): (f: NumField)
    ensures f.Absent? <==> n.NaN?
    ensures n.Num? ==> f == NumField.Num(n.value)
  {
    match n
    case NaN => Absent
    case Num(v) => NumField.Num(v)
  }

  /** `data.error || fallback`: the server's message, or the page's own one when that is empty. */
  function AlertText(e: Error, fallback: string): (m: string)
    requires fallback != ""
    ensures m != ""
    ensures ErrorMessage(e) != "" ==> m == ErrorMessage(e)
    ensures ErrorMessage(e) == "" ==> m == fallback
  {
    var message := ErrorMessage(e);
    if message == "" then fallback else message
  }

  /**
   * `materiaisOrdenados` on both pages: a copy of the loaded list ordered
   * by name with `localeCompare`; the list itself is not reordered.
   */
  function SortedByName(rows: seq<MaterialRow>): (r: seq<MaterialRow>)
    ensures SortedBy(r, ByName) && multiset(r) == multiset(rows)
  {
    ByNameTotal();
    SortBy(rows, ByName)
  }

  /** Any two rows of the sorted view are in name order, not only neighbours. */
  lemma SortedByNameInOrder(rows: seq<MaterialRow>, i: int, j: int)
    requires 0 <= i < j < |rows|
    ensures |SortedByName(rows)| == |rows| && ByName(SortedByName(rows)[i], SortedByName(rows)[j])
  {
    var r := SortedByName(rows);
    assert |r| == |multiset(r)| == |multiset(rows)| == |rows|;
    ByNameTransitive();
    SortedAllPairs(r, ByName, i, j);
  }
}
