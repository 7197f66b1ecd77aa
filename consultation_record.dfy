/** The consultation record of backend/coaching/models.py, restricted to what the
    stream view and the analysis task read and write. */
module ConsultationRecord {
  import opened Wrappers

  /** The four values of `STATUS_CHOICES`. */
  datatype Status = Pending | Processing | Completed | Failed {
    function Wire(): (s: string)
      ensures s in {"pending", "processing", "completed", "failed"}
    {
      match this
      case Pending => "pending"
      case Processing => "processing"
      case Completed => "completed"
      case Failed => "failed"
    }

    predicate IsTerminal() {
      Completed? || Failed?
    }
  }

  /** What the database holds of a row, restricted to the columns the task
      writes: `status`, `analysis_result` and `completed_at`. `completedAt` is
      a timestamp supplied by the caller (the clock is not modelled). */
  datatype Columns = Columns(status: Status, analysisResult: Option<string>, completedAt: Option<int>)

  /** One loaded row object. `status`, `analysisResult` and `completedAt` are
      its column attributes; `originalContent` and `supabaseFileUrl` are plain
      Python attributes the task sets, with no column behind them (None: not
      set). `stored` is what the database holds for the row. */
  class Consultation {
    const id: nat
    const fileType: string
    var status: Status
    var analysisResult: Option<string>
    var completedAt: Option<int>
    var originalContent: Option<string>
    var supabaseFileUrl: Option<string>
    var stored: Columns

    /** The column attributes as `save()` writes them. */
    function Current(): Columns
      reads this
    {
      Columns(status, analysisResult, completedAt)
    }

    /** A freshly saved row: status `pending`, nothing analysed yet. */
    constructor (id: nat, fileType: string)
      ensures this.id == id && this.fileType == fileType
      ensures Current() == Columns(Pending, None, None) && stored == Current()
      ensures originalContent == None && supabaseFileUrl == None
    {
      this.id := id;
      this.fileType := fileType;
      status := Pending;
      analysisResult := None;
      completedAt := None;
      originalContent := None;
      supabaseFileUrl := None;
      stored := Columns(Pending, None, None);
    }

    /** `Consultation.objects.get(id=…)`: the object as loaded from the
        database. The model reuses the object; a freshly loaded one has none of
        the plain attributes. */
    method Load()
      modifies this
      ensures Current() == old(stored) && stored == old(stored)
      ensures originalContent == None && supabaseFileUrl == None
    {
      status := stored.status;
      analysisResult := stored.analysisResult;
      completedAt := stored.completedAt;
      originalContent := None;
      supabaseFileUrl := None;
    }

    /** `save()`: the column attributes are written, the plain attributes are
        not. */
    method Save()
      modifies this`stored
      ensures stored == Current()
    {
      stored := Current();
    }
  }
}
