module Bounds {
  /** A limit on attempts that always allows one. */
  function AtLeastOne(limit: nat): nat {
    if limit == 0 then 1 else limit
  }
}
