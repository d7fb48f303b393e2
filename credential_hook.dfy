/**
 * The credential-generation hook: `generating`, `progress` and `error` state around the
 * single and batch generators, with the download of the resulting PDF through an object URL.
 * Fetching the barcode and the DOM download steps are external steps that succeed or throw.
 */
module CredentialHook {
  import opened Wrappers
  import opened EmployeeTypes
  import opened Browser
  import opened Drawing
  import opened Credentials

  datatype Progress = Progress(current: int, total: int)

  /** A PDF handed to the browser as a download through an object URL. */
  datatype Download = Download(url: string, filename: string, blob: PdfBlob)

  const SingleFallback := "Error al generar la credencial"
  const BatchFallback := "Error al generar las credenciales"
  const BatchFilename := "credentials.pdf"

  function SingleFilename(e: Employee): string
  {
    "credential-" + e.rut + ".pdf"
  }

  /** How an operation ends: it hangs on a promise that never settles, fails with a message, or downloads a PDF. */
  datatype Outcome = Hang | Failed(message: string) | Done(blob: PdfBlob)

  /** The `try` block of `generateCredential`: barcode, then card, then the download steps. */
  function SingleOutcome(env: Env, e: Employee, barcode: Settled<string>, click: Step): Outcome
  {
    match barcode
    case Pending => Hang
    case Rejected(t) => Failed(MessageOf(t, SingleFallback))
    case Resolved(data) =>
      match SingleCredential(env, e, data)
      case Pending => Hang
      case Rejected(t) => Failed(MessageOf(t, SingleFallback))
      case Resolved(blob) =>
        match click
        case Throws(t) => Failed(MessageOf(t, SingleFallback))
        case Succeeds => Done(blob)
  }

  /** The `try` block of `generateCredentials`: the batch, then the download steps. */
  function BatchOutcome(env: Env, es: seq<Employee>, click: Step): Outcome
  {
    match BatchCredentials(env, es, true).result
    case Pending => Hang
    case Rejected(t) => Failed(MessageOf(t, BatchFallback))
    case Resolved(blob) =>
      match click
      case Throws(t) => Failed(MessageOf(t, BatchFallback))
      case Succeeds => Done(blob)
  }

  /** `Math.floor(p * n)` for a progress value p, computed exactly. */
  function FloorTimes(p: Fraction, n: nat): int
    requires p.den > 0
  {
    (p.num * n) / p.den
  }

  /** The values `progress` takes on the first k progress calls of a batch of n. */
  function ProgressUpdates(k: nat, n: nat): seq<Option<Progress>>
  {
    if k == 0 then [] else ProgressUpdates(k - 1, n) + [Some(Progress(k, n))]
  }

  lemma MulLe(a: int, b: int, n: nat)
    requires a <= b
    ensures a * n <= b * n
  {
    assert b * n - a * n == (b - a) * n;
  }

  /** With exact arithmetic, the k-th progress call (k/n) sets `current` to k. */
  lemma FloorTimesExact(k: nat, n: nat)
    requires n > 0
    ensures FloorTimes(Fraction(k, n), n) == k
  {
    var q, r := (k * n) / n, (k * n) % n;
    assert q * n + r == k * n;
    if q > k {
      MulLe(k + 1, q, n);
    } else if q < k {
      MulLe(q + 1, k, n);
    }
  }

  class CredentialGeneration {
    var generating: bool
    var progress: Option<Progress>
    var error: Option<string>
    /** Every value `progress` has been set to, in order. */
    var progressHistory: seq<Option<Progress>>
    var downloads: seq<Download>
    var revoked: seq<string>

    constructor ()
      ensures !generating && progress == None && error == None
      ensures progressHistory == [] && downloads == [] && revoked == []
    {
      generating := false;
      progress := None;
      error := None;
      progressHistory := [];
      downloads := [];
      revoked := [];
    }

    /**
     * The state after `generateCredential(employee)` relative to the state before. It never
     * touches `progress`. Unless it hangs, it ends with `generating` false; `error` is cleared
     * at the start and set only on failure; the card is downloaded and its URL revoked only on
     * success.
     */
    twostate predicate GeneratedSingle(env: Env, e: Employee, barcode: Settled<string>, downloadUrl: string,
                                       click: Step, settled: bool)
      reads this
    {
      var out := SingleOutcome(env, e, barcode, click);
      && settled == !out.Hang?
      && generating == out.Hang?
      && error == (if out.Failed? then Some(out.message) else None)
      && downloads == old(downloads) + (if out.Done? then [Download(downloadUrl, SingleFilename(e), out.blob)] else [])
      && revoked == old(revoked) + (if out.Done? then [downloadUrl] else [])
      && progress == old(progress) && progressHistory == old(progressHistory)
    }

    /**
     * The state after `generateCredentials(employees)` relative to the state before.
     * `progress` starts at 0 of N, follows every progress call with the same total N, and is
     * cleared when the operation ends (unless it hangs).
     */
    twostate predicate GeneratedBatch(env: Env, es: seq<Employee>, downloadUrl: string, click: Step, settled: bool)
      reads this
    {
      var out := BatchOutcome(env, es, click);
      var k := |BatchCredentials(env, es, true).progress|;
      && settled == !out.Hang?
      && generating == out.Hang?
      && progress == (if out.Hang? then Some(Progress(k, |es|)) else None)
      && progressHistory == old(progressHistory) + [Some(Progress(0, |es|))] + ProgressUpdates(k, |es|)
                            + (if out.Hang? then [] else [None])
      && error == (if out.Failed? then Some(out.message) else None)
      && downloads == old(downloads) + (if out.Done? then [Download(downloadUrl, BatchFilename, out.blob)] else [])
      && revoked == old(revoked) + (if out.Done? then [downloadUrl] else [])
    }

    /**
     * `generateCredential(employee)`. It never touches `progress`. Unless it hangs, it ends
     * with `generating` false; `error` is cleared at the start and set only on failure.
     */
    method GenerateCredential(env: Env, e: Employee, barcode: Settled<string>, downloadUrl: string, click: Step)
      returns (settled: bool)
      modifies this
      ensures GeneratedSingle(env, e, barcode, downloadUrl, click, settled)
    {
      generating := true;
      error := None;
      match barcode {
        case Pending =>
          return false;
        case Rejected(t) =>
          error := Some(MessageOf(t, SingleFallback));
        case Resolved(data) =>
          var card := GenerateSingleCredential(env, e, data);
          match card {
            case Pending =>
              return false;
            case Rejected(t) =>
              error := Some(MessageOf(t, SingleFallback));
            case Resolved(blob) =>
              match click {
                case Throws(t) =>
                  error := Some(MessageOf(t, SingleFallback));
                case Succeeds =>
                  downloads := downloads + [Download(downloadUrl, "credential-" + e.rut + ".pdf", blob)];
                  revoked := revoked + [downloadUrl];
              }
          }
      }
      generating := false;
      settled := true;
    }

    /**
     * The `onProgress` callback applied to each call `(i+1)/N` in turn: `progress` becomes
     * `current` = floor(fraction * N) of N, which is i+1 with exact arithmetic.
     */
    method ReplayProgress(calls: seq<Fraction>, n: nat)
      requires |calls| <= n
      requires forall i :: 0 <= i < |calls| ==> calls[i] == Fraction(i + 1, n)
      requires progress == Some(Progress(0, n))
      modifies this
      ensures progress == Some(Progress(|calls|, n))
      ensures progressHistory == old(progressHistory) + ProgressUpdates(|calls|, n)
      ensures generating == old(generating) && error == old(error)
      ensures downloads == old(downloads) && revoked == old(revoked)
    {
      var j := 0;
      while j < |calls|
        invariant 0 <= j <= |calls|
        invariant progress == Some(Progress(j, n))
        invariant progressHistory == old(progressHistory) + ProgressUpdates(j, n)
        invariant generating == old(generating) && error == old(error)
        invariant downloads == old(downloads) && revoked == old(revoked)
      {
        FloorTimesExact(j + 1, n);
        progress := Some(Progress(FloorTimes(calls[j], n), n));
        progressHistory := progressHistory + [progress];
        j := j + 1;
      }
    }

    /**
     * `generateCredentials(employees)`. `progress` starts at 0 of N, follows every progress
     * call with the same total N, and is cleared when the operation ends. Unless it hangs, it
     * ends with `generating` false.
     */
    method GenerateCredentials(env: Env, es: seq<Employee>, downloadUrl: string, click: Step)
      returns (settled: bool)
      modifies this
      ensures GeneratedBatch(env, es, downloadUrl, click, settled)
    {
      var n := |es|;
      generating := true;
      error := None;
      progress := Some(Progress(0, n));
      progressHistory := progressHistory + [progress];
      ghost var started := progressHistory;

      var run := GenerateBatchCredentials(env, es, true);
      ProgressCallsSpec(CardsDone(env, es), n);
      ReplayProgress(run.progress, n);
      assert progressHistory == started + ProgressUpdates(|run.progress|, n);

      match run.result {
        case Pending =>
          return false;
        case Rejected(t) =>
          error := Some(MessageOf(t, BatchFallback));
        case Resolved(blob) =>
          match click {
            case Throws(t) =>
              error := Some(MessageOf(t, BatchFallback));
            case Succeeds =>
              downloads := downloads + [Download(downloadUrl, "credentials.pdf", blob)];
              revoked := revoked + [downloadUrl];
          }
      }
      generating := false;
      progress := None;
      progressHistory := progressHistory + [None];
      settled := true;
    }
  }

  /**
   * A single download happens iff the barcode, the card and the download steps all succeed,
   * and it carries the card's PDF. On failure the message is that of the first step that
   * threw, or the fixed default when what it threw is not an `Error`.
   */
  lemma SingleOutcomeSpec(env: Env, e: Employee, barcode: Settled<string>, click: Step)
    ensures var out := SingleOutcome(env, e, barcode, click);
      && (out.Done? <==> barcode.Resolved? && SingleCredential(env, e, barcode.value).Resolved? && click == Succeeds)
      && (out.Done? ==> out.blob == SingleCredential(env, e, barcode.value).value)
      && (barcode.Rejected? ==> out == Failed(MessageOf(barcode.thrown, SingleFallback)))
      && (out.Failed? && barcode.Resolved? && SingleCredential(env, e, barcode.value).Resolved? ==>
            click.Throws? && out.message == MessageOf(click.thrown, SingleFallback))
  {
  }

  /**
   * The batch download happens iff every card resolves and the download steps succeed; the
   * downloaded PDF is the batch document. A hang is a card whose image never loads.
   */
  lemma BatchOutcomeSpec(env: Env, es: seq<Employee>, click: Step)
    ensures var out := BatchOutcome(env, es, click);
      && (out.Done? <==> (forall j :: 0 <= j < |es| ==> CardOk(env, es[j])) && click == Succeeds)
      && (out.Done? ==> out.blob == PdfBlob(BatchPages(env, |es|)))
      && (out.Hang? <==> CardsDone(env, es) < |es| && BatchCard(env, es[CardsDone(env, es)]).Pending?)
  {
    var k := CardsDone(env, es);
    if k < |es| {
      assert !CardOk(env, es[k]);
    }
  }

  /**
   * The batch draws `data:image/svg+xml;base64,` + `btoa(rut)` as its barcode image, which
   * decodes to the bare RUT rather than SVG markup. In a browser that loads no such image, a
   * non-empty batch whose first RUT is Latin-1 never settles: `generating` stays true.
   */
  lemma RawRutBarcodeHangs(env: Env, es: seq<Employee>, click: Step)
    requires env.hasContext && |es| > 0 && Base64.IsLatin1(es[0].rut)
    requires forall x :: !env.loads(BarcodePrefix + x)
    ensures CardsDone(env, es) == 0
    ensures BatchOutcome(env, es, click) == Hang
  {
    var b := Base64.Btoa(es[0].rut);
    assert b.Some?;
    assert !env.loads(BarcodePrefix + b.value);
    assert BatchCard(env, es[0]) == Pending;
  }

  /**
   * The progress values set by the callback: one per call, all with total n, with currents
   * 1, 2, ..., k, so they strictly increase.
   */
  lemma {:induction false} ProgressUpdatesSpec(k: nat, n: nat)
    ensures |ProgressUpdates(k, n)| == k
    ensures forall j :: 0 <= j < k ==> ProgressUpdates(k, n)[j] == Some(Progress(j + 1, n))
  {
    if k > 0 {
      ProgressUpdatesSpec(k - 1, n);
    }
  }
}
