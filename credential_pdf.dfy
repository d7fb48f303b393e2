/**
 * The callback-style card generator: it draws the card on a canvas as images load and, once
 * the barcode has been drawn, saves the PDF and calls `onComplete`. It returns nothing; its
 * effects are the save and the completion call.
 */
module CredentialPdf {
  import opened Wrappers
  import opened EmployeeTypes
  import opened Browser
  import opened Drawing
  import opened Credentials

  datatype Effect = Saved(filename: string, blob: PdfBlob) | Completed

  function PdfFilename(e: Employee): string
  {
    "credential-" + e.rut + ".pdf"
  }

  /** The background, the brand and the photo outline, drawn before any image loads. */
  const FrameOps: seq<DrawOp> :=
    [ FillRect(White, 0, 0, CardWidth, CardHeight),
      FillText(BrandBlue, BrandFont, "EMS", 40, 60),
      StrokeRect(OutlineColour, 40, 100, 200, 200) ]

  /** The photo, when there is one. */
  function PhotoOp(e: Employee): seq<DrawOp>
  {
    if HasPhoto(e) then [DrawImage(e.profileImage.value, 40, 100, 200, 200)] else []
  }

  /** The details drawn after the photo (if any): name, position, department. */
  function DetailOps(e: Employee): seq<DrawOp>
  {
    [ FillText(NameColour, NameFont, FullName(e), 280, 140),
      FillText(DetailColour, DetailFont, e.position, 280, 180),
      FillText(DetailColour, DetailFont, e.department, 280, 220) ]
  }

  /** Everything drawn on this card, in drawing order. */
  function PdfCardOps(e: Employee, barcode: string): seq<DrawOp>
  {
    FrameOps + PhotoOp(e) + DetailOps(e) + [DrawImage(barcode, 40, 320, 440, 100)]
  }

  /**
   * The effects of `generateCredentialPDF(employee, barcode, onComplete)`: nothing without a 2D
   * context or when an image never loads; otherwise the save, then the completion call if a
   * callback was given.
   */
  function CredentialPdfEffects(env: Env, e: Employee, barcode: string, hasOnComplete: bool): seq<Effect>
  {
    if !env.hasContext then []
    else if HasPhoto(e) && !env.loads(e.profileImage.value) then []
    else if !env.loads(barcode) then []
    else [Saved(PdfFilename(e), PdfBlob([[CanvasJpeg(PdfCardOps(e, barcode))]]))]
         + (if hasOnComplete then [Completed] else [])
  }

  method DrawFrame(canvas: Canvas)
    requires canvas.width == CardWidth && canvas.height == CardHeight && canvas.ops == []
    modifies canvas
    ensures canvas.ops == FrameOps
  {
    canvas.SetFillStyle(White);
    canvas.FillRect(0, 0, canvas.width, canvas.height);
    canvas.SetFillStyle(BrandBlue);
    canvas.SetFont(BrandFont);
    canvas.FillText("EMS", 40, 60);
    canvas.SetStrokeStyle(OutlineColour);
    canvas.StrokeRect(40, 100, 200, 200);
  }

  method DrawDetailText(canvas: Canvas, e: Employee)
    modifies canvas
    ensures canvas.ops == old(canvas.ops) + DetailOps(e)
  {
    canvas.SetFillStyle(NameColour);
    canvas.SetFont(NameFont);
    canvas.FillText(e.firstName + " " + e.lastName, 280, 140);
    canvas.SetFont(DetailFont);
    canvas.SetFillStyle(DetailColour);
    canvas.FillText(e.position, 280, 180);
    canvas.FillText(e.department, 280, 220);
  }

  /** The `drawImage` finaliser: snapshot the canvas into the document, save it, then `onComplete()`. */
  method Finalise(doc: PdfDoc, canvas: Canvas, e: Employee, hasOnComplete: bool) returns (effects: seq<Effect>)
    requires doc.pages == [[]]
    modifies doc
    ensures effects == [Saved(PdfFilename(e), PdfBlob([[CanvasJpeg(canvas.ops)]]))]
                       + (if hasOnComplete then [Completed] else [])
  {
    doc.AddImage(CanvasJpeg(canvas.ops));
    assert [] + [CanvasJpeg(canvas.ops)] == [CanvasJpeg(canvas.ops)];
    assert doc.pages == [[CanvasJpeg(canvas.ops)]];
    var blob := doc.Output();
    effects := [Saved("credential-" + e.rut + ".pdf", blob)];
    if hasOnComplete {
      effects := effects + [Completed];
    }
  }

  /** The generator with its callbacks run in order: photo `onload`, then barcode `onload`. */
  method GenerateCredentialPdf(env: Env, e: Employee, barcode: string, hasOnComplete: bool) returns (effects: seq<Effect>)
    ensures effects == CredentialPdfEffects(env, e, barcode, hasOnComplete)
  {
    var doc := new PdfDoc();
    var canvas := new Canvas();
    if !env.hasContext {
      return [];
    }
    canvas.SetSize(CardWidth, CardHeight);
    DrawFrame(canvas);

    if HasPhoto(e) {
      if !env.loads(e.profileImage.value) {
        return [];
      }
      canvas.DrawImage(e.profileImage.value, 40, 100, 200, 200);
    }
    assert canvas.ops == FrameOps + PhotoOp(e);
    DrawDetailText(canvas, e);

    if !env.loads(barcode) {
      return [];
    }
    canvas.DrawImage(barcode, 40, 320, 440, 100);
    assert canvas.ops == PdfCardOps(e, barcode);
    effects := Finalise(doc, canvas, e, hasOnComplete);
  }

  /**
   * The canvas is filled white, then "EMS" and the photo outline are drawn whether or not there
   * is a photo; a photo comes next, before any text; the barcode is drawn last, right after the
   * name, position and department.
   */
  lemma PdfCardLayout(e: Employee, barcode: string)
    ensures var ops := PdfCardOps(e, barcode);
      && ops[..3] == FrameOps
      && ops[0] == FillRect(White, 0, 0, 1016, 642)
      && (HasPhoto(e) ==> ops[3] == DrawImage(e.profileImage.value, 40, 100, 200, 200))
      && ops[|ops| - 4..] == DetailOps(e) + [DrawImage(barcode, 40, 320, 440, 100)]
      && |ops| == if HasPhoto(e) then 8 else 7
  {
  }

  /**
   * No initials are drawn on this path: every text drawn is the brand or a detail line, and
   * none of it is at the placeholder's (100,200).
   */
  lemma NoInitials(e: Employee, barcode: string)
    ensures var ops := PdfCardOps(e, barcode);
      forall i :: 0 <= i < |ops| && ops[i].FillText? ==>
        ops[i].text in {"EMS", FullName(e), e.position, e.department} && !(ops[i].x == 100 && ops[i].y == 200)
  {
    var ops := PdfCardOps(e, barcode);
    forall i | 0 <= i < |ops| && ops[i].FillText?
      ensures ops[i].text in {"EMS", FullName(e), e.position, e.department} && !(ops[i].x == 100 && ops[i].y == 200)
    {
      if HasPhoto(e) {
        assert i in {1, 4, 5, 6};
      } else {
        assert i in {1, 3, 4, 5};
      }
    }
  }

  /**
   * Without a context nothing is saved and `onComplete` is not called. When the card is saved,
   * the save comes first, under `credential-<rut>.pdf`, and `onComplete` follows exactly once
   * if it was given.
   */
  lemma PdfEffectsSpec(env: Env, e: Employee, barcode: string, hasOnComplete: bool)
    ensures var fx := CredentialPdfEffects(env, e, barcode, hasOnComplete);
      && (!env.hasContext ==> fx == [])
      && (fx != [] <==> env.hasContext && env.loads(barcode) && (HasPhoto(e) ==> env.loads(e.profileImage.value)))
      && (fx != [] ==>
            && fx[0].Saved? && fx[0].filename == "credential-" + e.rut + ".pdf"
            && |fx| == (if hasOnComplete then 2 else 1)
            && (hasOnComplete ==> fx[1] == Completed))
  {
  }
}
