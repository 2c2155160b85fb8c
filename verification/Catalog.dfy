// The vocabulary shared by the ingest modules.
module Catalog {

  datatype Media = Movie | Tv

  datatype Mode = FullSweep | MissingOnly | Recovery | PruneCleanup | DailySync | Reconcile
}
