/** What restoring a persisted store from device storage yields. */
module Persistence {
  import opened Wrappers

  /**
   * The outcome of reading a store's saved state at start-up: the saved subset of its fields
   * (`None` when nothing was saved yet), or a failure to read or parse it.
   */
  datatype Hydration<P> = Hydrated(saved: Option<P>) | HydrationFailed
}
