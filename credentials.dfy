/**
 * Credential cards drawn on a 1016 x 642 canvas (85.6 x 54 mm at 300 dpi) and placed in a
 * landscape PDF: one card per document, or a batch of cards in one document.
 */
module Credentials {
  import opened Wrappers
  import opened EmployeeTypes
  import opened Browser
  import opened Drawing
  import Base64

  const CardWidth := 1016
  const CardHeight := 642

  const White := "#ffffff"
  const BrandBlue := "#1e40af"
  const NameColour := "#111827"
  const DetailColour := "#4b5563"
  const OutlineColour := "#e5e7eb"
  const InitialsColour := "#9ca3af"

  const BrandFont := "bold 48px Arial"
  const NameFont := "bold 36px Arial"
  const DetailFont := "24px Arial"

  const NoContextMessage := "Could not get canvas context"
  const BarcodePrefix := "data:image/svg+xml;base64,"

  /** `if (employee.profileImage)`: the field is present and not the empty string. */
  predicate HasPhoto(e: Employee)
  {
    e.profileImage.Some? && e.profileImage.value != ""
  }

  /** `` `${s[0]}` ``: the first character, or the text `undefined` for the empty string. */
  function FirstLetter(s: string): string
  {
    if |s| > 0 then [s[0]] else "undefined"
  }

  function Initials(e: Employee): string
  {
    FirstLetter(e.firstName) + FirstLetter(e.lastName)
  }

  function FullName(e: Employee): string
  {
    e.firstName + " " + e.lastName
  }

  /** The photo, or the outlined placeholder with the initials, on the left of the card. */
  function PhotoOps(e: Employee): seq<DrawOp>
  {
    if HasPhoto(e) then [DrawImage(e.profileImage.value, 40, 100, 200, 200)]
    else [StrokeRect(OutlineColour, 40, 100, 200, 200), FillText(InitialsColour, BrandFont, Initials(e), 100, 200)]
  }

  /** The background, the brand and the employee's details. */
  function TextOps(e: Employee): seq<DrawOp>
  {
    [ FillRect(White, 0, 0, CardWidth, CardHeight),
      FillText(BrandBlue, BrandFont, "EMS", 40, 60),
      FillText(NameColour, NameFont, FullName(e), 280, 140),
      FillText(DetailColour, DetailFont, e.position, 280, 180),
      FillText(DetailColour, DetailFont, e.department, 280, 220) ]
  }

  /** Everything drawn on a card, in drawing order. */
  function CardOps(e: Employee, barcode: string): seq<DrawOp>
  {
    TextOps(e) + [DrawImage(barcode, 40, 320, 440, 100)] + PhotoOps(e)
  }

  /** How `generateSingleCredential(employee, barcode)` settles. */
  function SingleCredential(env: Env, e: Employee, barcode: string): Settled<PdfBlob>
  {
    if !env.hasContext then Rejected(ErrorObject(NoContextMessage))
    else if !env.loads(barcode) then Pending
    else if HasPhoto(e) && !env.loads(e.profileImage.value) then Pending
    else Resolved(PdfBlob([[CanvasJpeg(CardOps(e, barcode))]]))
  }

  /** The drawing steps up to the barcode, on a canvas just sized to the card. */
  method DrawDetails(canvas: Canvas, e: Employee)
    requires canvas.width == CardWidth && canvas.height == CardHeight && canvas.ops == []
    modifies canvas
    ensures canvas.ops == TextOps(e)
  {
    canvas.SetFillStyle(White);
    canvas.FillRect(0, 0, canvas.width, canvas.height);

    canvas.SetFillStyle(BrandBlue);
    canvas.SetFont(BrandFont);
    canvas.FillText("EMS", 40, 60);

    canvas.SetFillStyle(NameColour);
    canvas.SetFont(NameFont);
    canvas.FillText(e.firstName + " " + e.lastName, 280, 140);

    canvas.SetFont(DetailFont);
    canvas.SetFillStyle(DetailColour);
    canvas.FillText(e.position, 280, 180);
    canvas.FillText(e.department, 280, 220);
  }

  /** The placeholder drawn when there is no photo: an outline and the initials. */
  method DrawPlaceholder(canvas: Canvas, e: Employee)
    requires !HasPhoto(e)
    modifies canvas
    ensures canvas.ops == old(canvas.ops) + PhotoOps(e)
  {
    canvas.SetStrokeStyle(OutlineColour);
    canvas.StrokeRect(40, 100, 200, 200);
    canvas.SetFont(BrandFont);
    canvas.SetFillStyle(InitialsColour);
    canvas.FillText(FirstLetter(e.firstName) + FirstLetter(e.lastName), 100, 200);
  }

  /** Draws the card step by step and returns the one-page document holding its snapshot. */
  method GenerateSingleCredential(env: Env, e: Employee, barcode: string) returns (r: Settled<PdfBlob>)
    ensures r == SingleCredential(env, e, barcode)
  {
    var doc := new PdfDoc();
    var canvas := new Canvas();
    if !env.hasContext {
      return Rejected(ErrorObject(NoContextMessage));
    }
    canvas.SetSize(CardWidth, CardHeight);
    DrawDetails(canvas, e);

    if !env.loads(barcode) {
      return Pending;
    }
    canvas.DrawImage(barcode, 40, 320, 440, 100);
    ghost var withBarcode := canvas.ops;
    assert withBarcode == TextOps(e) + [DrawImage(barcode, 40, 320, 440, 100)];

    if HasPhoto(e) {
      var photo := e.profileImage.value;
      if !env.loads(photo) {
          return Pending;
      }
      canvas.DrawImage(photo, 40, 100, 200, 200);
    } else {
      DrawPlaceholder(canvas, e);
    }
    assert canvas.ops == withBarcode + PhotoOps(e) == CardOps(e, barcode);

    doc.AddImage(CanvasJpeg(canvas.ops));
    assert [] + [CanvasJpeg(canvas.ops)] == [CanvasJpeg(CardOps(e, barcode))];
    assert doc.pages == [[CanvasJpeg(CardOps(e, barcode))]];
    var blob := doc.Output();
    r := Resolved(blob);
  }

  /**
   * The card starts with a white fill of the whole canvas, then the brand, the name, the
   * position, the department and the barcode, in that order and at fixed places; the photo
   * area comes last.
   */
  lemma CardLayout(e: Employee, barcode: string)
    ensures var ops := CardOps(e, barcode);
      && ops[0] == FillRect(White, 0, 0, 1016, 642)
      && ops[1].FillText? && ops[1].text == "EMS" && ops[1].x == 40 && ops[1].y == 60
      && ops[2].FillText? && ops[2].text == e.firstName + " " + e.lastName && ops[2].x == 280 && ops[2].y == 140
      && ops[3].FillText? && ops[3].text == e.position && ops[3].x == 280 && ops[3].y == 180
      && ops[4].FillText? && ops[4].text == e.department && ops[4].x == 280 && ops[4].y == 220
      && ops[5] == DrawImage(barcode, 40, 320, 440, 100)
      && |ops| == if HasPhoto(e) then 7 else 8
  {
  }

  /**
   * Exactly one of the two photo branches runs: the photo is drawn into (40,100,200,200) iff
   * there is one, and the outline and the initials at (100,200) are drawn iff there is none.
   * The initials are the two names' first letters; an empty first name puts the text
   * `undefined` in front of the last name's letter.
   */
  lemma PhotoBranches(e: Employee, barcode: string)
    ensures var ops := CardOps(e, barcode);
      && (HasPhoto(e) <==> DrawImage(e.profileImage.GetOr(""), 40, 100, 200, 200) in ops)
      && (!HasPhoto(e) <==> StrokeRect(OutlineColour, 40, 100, 200, 200) in ops)
      && (!HasPhoto(e) <==> FillText(InitialsColour, BrandFont, Initials(e), 100, 200) in ops)
    ensures |e.firstName| > 0 && |e.lastName| > 0 ==> Initials(e) == [e.firstName[0], e.lastName[0]]
    ensures |e.firstName| == 0 && |e.lastName| > 0 ==> Initials(e) == "undefined" + [e.lastName[0]]
  {
    var ops := CardOps(e, barcode);
    if !HasPhoto(e) {
      assert ops[6] == StrokeRect(OutlineColour, 40, 100, 200, 200);
      assert ops[7] == FillText(InitialsColour, BrandFont, Initials(e), 100, 200);
    } else {
      assert ops[6] == DrawImage(e.profileImage.value, 40, 100, 200, 200);
    }
  }

  /**
   * Without a 2D context the call rejects with its fixed message and draws nothing; with one
   * it never rejects, and it resolves iff the barcode (and the photo, when there is one) load.
   */
  lemma SingleCredentialOutcome(env: Env, e: Employee, barcode: string)
    ensures var r := SingleCredential(env, e, barcode);
      && (r.Rejected? <==> !env.hasContext)
      && (r.Rejected? ==> r.thrown == ErrorObject(NoContextMessage))
      && (r.Resolved? <==> env.hasContext && env.loads(barcode) && (HasPhoto(e) ==> env.loads(e.profileImage.value)))
      && (r.Resolved? ==> |r.value.pages| == 1 && r.value.pages[0] == [CanvasJpeg(CardOps(e, barcode))])
  {
  }

  /** The barcode URL the batch passes for an employee; `None` when `btoa` throws on the RUT. */
  function BatchBarcode(rut: string): (r: Option<string>)
    ensures r.Some? <==> Base64.IsLatin1(rut)
  {
    match Base64.Btoa(rut)
    case None => None
    case Some(b) => Some(BarcodePrefix + b)
  }

  /** How one iteration's card settles, `btoa` included. */
  function BatchCard(env: Env, e: Employee): Settled<PdfBlob>
  {
    match BatchBarcode(e.rut)
    case None => Rejected(ErrorObject(env.btoaMessage))
    case Some(barcode) => SingleCredential(env, e, barcode)
  }

  predicate CardOk(env: Env, e: Employee)
  {
    BatchCard(env, e).Resolved?
  }

  /** The document of an employee's card when it resolves (the log only holds resolved cards). */
  function CardBlob(env: Env, e: Employee): (b: PdfBlob)
    ensures CardOk(env, e) ==> BatchCard(env, e) == Resolved(b)
  {
    match BatchCard(env, e)
    case Resolved(b) => b
    case _ => PdfBlob([])
  }

  /** How many leading employees get their card before the first one whose card does not resolve. */
  function CardsDone(env: Env, es: seq<Employee>): (k: nat)
    ensures k <= |es|
    ensures forall j :: 0 <= j < k ==> CardOk(env, es[j])
    ensures k < |es| ==> !CardOk(env, es[k])
  {
    if |es| == 0 || !CardOk(env, es[0]) then 0 else 1 + CardsDone(env, es[1..])
  }

  /**
   * The pages after `k` iterations: the first iteration adds one page, every later one adds a
   * blank page and then a page for its card, which holds the card's object URL.
   */
  function BatchPages(env: Env, k: nat): seq<seq<PdfImage>>
  {
    if k == 0 then [[]]
    else if k == 1 then [[], [UrlImage(env.objectUrl(0))]]
    else BatchPages(env, k - 1) + [[], [UrlImage(env.objectUrl(k - 1))]]
  }

  /** The argument `(i + 1) / N` of a progress call, kept as an exact fraction. */
  datatype Fraction = Fraction(num: nat, den: nat)

  /** The progress calls made by the first `k` iterations of a batch of `n`. */
  function ProgressCalls(k: nat, n: nat): seq<Fraction>
  {
    if k == 0 then [] else ProgressCalls(k - 1, n) + [Fraction(k, n)]
  }

  /** An object URL created for a card's document, or revoked. */
  datatype UrlEvent = Created(url: string, blob: PdfBlob) | Revoked(url: string)

  /** The object-URL events of the first `k` iterations. */
  function UrlLog(env: Env, es: seq<Employee>, k: nat): seq<UrlEvent>
    requires k <= |es|
  {
    if k == 0 then []
    else
      UrlLog(env, es, k - 1)
         + [Created(env.objectUrl(k - 1), CardBlob(env, es[k - 1])), Revoked(env.objectUrl(k - 1))]
  }

  /** What a batch call produces: how its promise settles, the progress calls and the URL events. */
  datatype BatchRun = BatchRun(result: Settled<PdfBlob>, progress: seq<Fraction>, urls: seq<UrlEvent>)

  /**
   * `generateBatchCredentials(es, onProgress)`: the iterations run in order until a card fails
   * to resolve, which settles the batch the same way; otherwise the document resolves.
   */
  function BatchCredentials(env: Env, es: seq<Employee>, hasOnProgress: bool): BatchRun
  {
    var k := CardsDone(env, es);
    BatchRun(
      if k == |es| then Resolved(PdfBlob(BatchPages(env, k))) else BatchCard(env, es[k]),
      if hasOnProgress then ProgressCalls(k, |es|) else [],
      UrlLog(env, es, k))
  }

  /** A card that resolves right after the first `i` lets the batch go on past it. */
  lemma CardsDoneStep(env: Env, es: seq<Employee>, i: nat)
    requires i < |es| && i <= CardsDone(env, es) && CardOk(env, es[i])
    ensures i + 1 <= CardsDone(env, es)
  {
  }

  /** A card that does not resolve right after the first `i` is where the batch stops. */
  lemma CardsDoneStop(env: Env, es: seq<Employee>, i: nat)
    requires i < |es| && i <= CardsDone(env, es) && !CardOk(env, es[i])
    ensures CardsDone(env, es) == i
  {
  }

  /** `doc.addPage(); doc.addImage(url, ...)`: a new last page holding the image. */
  method AddCardPage(doc: PdfDoc, url: string)
    requires doc.Valid()
    modifies doc
    ensures doc.Valid() && doc.pages == old(doc.pages) + [[UrlImage(url)]]
  {
    doc.AddPage();
    doc.AddImage(UrlImage(url));
    assert [] + [UrlImage(url)] == [UrlImage(url)];
  }

  /** One iteration's card: `btoa` on the RUT, then the single-card generator. */
  method GenerateBatchCard(env: Env, e: Employee) returns (card: Settled<PdfBlob>)
    ensures card == BatchCard(env, e)
  {
    var barcode := BatchBarcode(e.rut);
    if barcode.None? {
      return Rejected(ErrorObject(env.btoaMessage));
    }
    card := GenerateSingleCredential(env, e, barcode.value);
  }

  /**
   * The state after `i` iterations of the batch loop, all of whose cards resolved: the
   * progress calls (when there is a callback) and the object-URL events so far.
   */
  predicate Iterated(env: Env, es: seq<Employee>, hasOnProgress: bool, i: nat,
                     progress: seq<Fraction>, urls: seq<UrlEvent>)
  {
    && i <= CardsDone(env, es)
    && progress == (if hasOnProgress then ProgressCalls(i, |es|) else [])
    && urls == UrlLog(env, es, i)
  }

  /**
   * Iteration `i` of the batch loop: a blank page unless it is the first, the card, and when
   * the card resolves its page, its URL created and revoked, and its progress call.
   */
  method BatchIteration(env: Env, es: seq<Employee>, hasOnProgress: bool, i: nat, doc: PdfDoc,
                        progress: seq<Fraction>, urls: seq<UrlEvent>)
    returns (card: Settled<PdfBlob>, progress': seq<Fraction>, urls': seq<UrlEvent>)
    requires i < |es| && Iterated(env, es, hasOnProgress, i, progress, urls)
    requires doc.Valid() && doc.pages == BatchPages(env, i)
    modifies doc
    ensures card == BatchCard(env, es[i])
    ensures card.Resolved? ==> Iterated(env, es, hasOnProgress, i + 1, progress', urls')
    ensures card.Resolved? ==> doc.Valid() && doc.pages == BatchPages(env, i + 1)
    ensures !card.Resolved? ==> CardsDone(env, es) == i
  {
    if i > 0 {
      doc.AddPage();
    }
    card := GenerateBatchCard(env, es[i]);
    if !card.Resolved? {
      CardsDoneStop(env, es, i);
      return card, progress, urls;
    }
    CardsDoneStep(env, es, i);
    var url := env.objectUrl(i);
    urls' := urls + [Created(url, card.value)];
    AddCardPage(doc, url);
    assert doc.pages == BatchPages(env, i + 1);
    urls' := urls' + [Revoked(url)];
    assert UrlLog(env, es, i + 1) == UrlLog(env, es, i) + [Created(url, card.value), Revoked(url)];
    progress' := if hasOnProgress then progress + [Fraction(i + 1, |es|)] else progress;
  }

  /**
   * The `for` loop of the batch on document `doc`: it runs the iterations in order and stops
   * at the first card that does not resolve, returning that card; `i` is the number of
   * iterations that finished.
   */
  method BatchLoop(env: Env, es: seq<Employee>, hasOnProgress: bool, doc: PdfDoc)
    returns (i: nat, card: Settled<PdfBlob>, progress: seq<Fraction>, urls: seq<UrlEvent>)
    requires doc.Valid() && doc.pages == BatchPages(env, 0)
    modifies doc
    ensures i == CardsDone(env, es)
    ensures i < |es| ==> card == BatchCard(env, es[i])
    ensures Iterated(env, es, hasOnProgress, i, progress, urls)
    ensures i == |es| ==> doc.Valid() && doc.pages == BatchPages(env, i)
  {
    progress, urls := [], [];
    i := 0;
    card := Pending;
    while i < |es|
      invariant Iterated(env, es, hasOnProgress, i, progress, urls)
      invariant doc.Valid() && doc.pages == BatchPages(env, i)
    {
      var progress', urls';
      card, progress', urls' := BatchIteration(env, es, hasOnProgress, i, doc, progress, urls);
      if !card.Resolved? {
        return;
      }
      progress, urls := progress', urls';
      i := i + 1;
    }
  }

  /** `generateBatchCredentials(es, onProgress)`, step by step on a jsPDF document. */
  method GenerateBatchCredentials(env: Env, es: seq<Employee>, hasOnProgress: bool) returns (run: BatchRun)
    ensures run == BatchCredentials(env, es, hasOnProgress)
  {
    var doc := new PdfDoc();
    var i, card, progress, urls := BatchLoop(env, es, hasOnProgress, doc);
    if i < |es| {
      return BatchRun(card, progress, urls);
    }
    var blob := doc.Output();
    run := BatchRun(Resolved(blob), progress, urls);
  }

  /** N >= 1 cards make 2N pages; an empty batch keeps the document's single initial page. */
  lemma {:induction false} BatchPageCount(env: Env, k: nat)
    ensures |BatchPages(env, k)| == if k == 0 then 1 else 2 * k
  {
    if k > 1 {
      BatchPageCount(env, k - 1);
    }
  }

  /** Card j (0-based) is alone on page 2j+1, and page 2j is blank. */
  lemma {:induction false} BatchPageLayout(env: Env, k: nat, j: nat)
    requires j < k
    ensures |BatchPages(env, k)| >= 2 * j + 2
    ensures BatchPages(env, k)[2 * j] == []
    ensures BatchPages(env, k)[2 * j + 1] == [UrlImage(env.objectUrl(j))]
  {
    BatchPageCount(env, k);
    if k > 1 && j < k - 1 {
      BatchPageLayout(env, k - 1, j);
      BatchPageCount(env, k - 1);
    }
  }

  /**
   * One call per finished iteration, with (i+1)/N: every call has denominator N, the
   * numerators run 1, 2, ..., k, so they strictly increase.
   */
  lemma {:induction false} ProgressCallsSpec(k: nat, n: nat)
    ensures |ProgressCalls(k, n)| == k
    ensures forall j :: 0 <= j < k ==> ProgressCalls(k, n)[j] == Fraction(j + 1, n)
  {
    if k > 0 {
      ProgressCallsSpec(k - 1, n);
    }
  }

  /** Every URL is revoked right after it is created, in the same iteration, and iteration j
   *  holds the card of the j-th employee, drawn with the barcode built from that employee's RUT. */
  lemma {:induction false} UrlLogSpec(env: Env, es: seq<Employee>, k: nat, j: nat)
    requires k <= |es| && j < k
    requires forall i :: 0 <= i < k ==> CardOk(env, es[i])
    ensures |UrlLog(env, es, k)| == 2 * k
    ensures UrlLog(env, es, k)[2 * j] == Created(env.objectUrl(j), CardBlob(env, es[j]))
    ensures BatchCard(env, es[j]) == Resolved(CardBlob(env, es[j]))
    ensures UrlLog(env, es, k)[2 * j + 1] == Revoked(env.objectUrl(j))
    ensures BatchBarcode(es[j].rut).Some?
    ensures BatchCard(env, es[j]) == SingleCredential(env, es[j], BarcodePrefix + Base64.Encode(es[j].rut))
  {
    if j < k - 1 {
      UrlLogSpec(env, es, k - 1, j);
    } else if k > 1 {
      UrlLogSpec(env, es, k - 1, 0);
    }
    assert CardOk(env, es[j]);
  }

  /**
   * A batch resolves iff every card resolves; it then has made one progress call per employee
   * (the last one N/N) when a callback was given. An empty batch resolves to one blank page,
   * with no progress calls and no object URLs.
   */
  lemma BatchCredentialsSpec(env: Env, es: seq<Employee>, hasOnProgress: bool)
    ensures var run := BatchCredentials(env, es, hasOnProgress);
      && (run.result.Resolved? <==> forall j :: 0 <= j < |es| ==> CardOk(env, es[j]))
      && (run.result.Resolved? && hasOnProgress ==> |run.progress| == |es|)
      && (run.result.Resolved? && hasOnProgress && |es| > 0 ==> run.progress[|es| - 1] == Fraction(|es|, |es|))
      && (|es| == 0 ==> run == BatchRun(Resolved(PdfBlob([[]])), [], []))
  {
    var k := CardsDone(env, es);
    ProgressCallsSpec(k, |es|);
    if k < |es| {
      assert !CardOk(env, es[k]);
    }
  }
}
