/** The two businesses an admin account may run, and the app tiles each has. */
module Verticals {

  datatype Vertical = Cleaning | Repair

  const CLEANING_TILES := ["cln", "deep", "tnk", "sof", "crp", "kit", "bth", "lndr"]
  const REPAIR_TILES := ["ac", "plm", "elc", "cpt", "pnt", "gen"]

  function Categories(v: Vertical): seq<string> {
    match v
    case Cleaning => CLEANING_TILES
    case Repair => REPAIR_TILES
  }
}
