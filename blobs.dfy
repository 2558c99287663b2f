/** The blob stores, in memory. Each key of the "qc-hub" store the handlers use
    is one field, `None` while the key has never been written, so that a read
    with a fallback (`getJSON(key, fallback)`) is `field.GetOr(fallback)` and a
    write (`setJSON(key, value)`) is `field := Some(value)`. The per-id stores
    "submissions" and "uploads" are maps from key to record. */
module Blobs {
  import opened Types

  /** The "qc-hub" store. */
  class HubStore {
    var submissions: Option<seq<Submission>>     // key "submissions"
    var hubState: Option<HubState>               // key "hub-state"
    var calendarCache: Option<CalendarCache>     // key "calendar-cache"

    constructor ()
      ensures submissions == None && hubState == None && calendarCache == None
    {
      submissions := None;
      hubState := None;
      calendarCache := None;
    }
  }

  /** The "submissions" store of the note handlers, one record per id. */
  class NoteStore {
    var records: map<string, NoteSubmission>

    constructor ()
      ensures records == map[]
    {
      records := map[];
    }
  }

  /** The "uploads" store, one file per file id. */
  class UploadStore {
    var files: map<string, StoredFile>

    constructor ()
      ensures files == map[]
    {
      files := map[];
    }
  }
}
