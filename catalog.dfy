/**
 * The catalog rows both database matchers read (interfaces/dbConnector.py and
 * logic/db_connector.py) and their shared relative-tolerance test.
 */
module Catalog {
  import opened Numbers

  /** One unprocessed row: its dimensions in millimetres and its shape column. */
  datatype CatalogBox = CatalogBox(commonId: int, length: real, width: real, height: real, shape: string)

  /** `is_within_tolerance`: measured lies in [reference - reference*tol, reference + reference*tol]. */
  predicate WithinTolerance(tol: real, measured: real, reference: real) {
    reference - reference * tol <= measured <= reference + reference * tol
  }

  /**
   * For a non-negative reference the test is a relative-error bound; for a
   * negative reference and a positive tolerance the interval is empty.
   */
  lemma WithinToleranceMeaning(tol: real, measured: real, reference: real)
    ensures reference >= 0.0 ==> (WithinTolerance(tol, measured, reference) <==> Abs(measured - reference) <= reference * tol)
    ensures reference < 0.0 && tol > 0.0 ==> !WithinTolerance(tol, measured, reference)
  {
    if reference < 0.0 && tol > 0.0 {
      assert reference * tol < 0.0;
    }
  }
}
