/** The resize tool: validates the requested dimensions, then calls the
    page's viewport setter once. The setter's behaviour is an input. */
module Resize {
  import opened Text
  import opened Viewports

  /** A tool argument as far as validation sees it: a number or anything
      else (a string, a missing value, ...). */
  datatype Dimension = Number(value: int) | NotNumber

  /** What the page's `setViewportSize` does when called. */
  datatype SetterOutcome = Succeeds | Throws(message: string)

  datatype Response = Response(text: string, isError: bool)

  /** The calls made to the setter, in order, and the tool's response. */
  datatype ResizeResult = ResizeResult(setterCalls: seq<Viewport>, response: Response)

  const WidthError := "Width must be a positive number"
  const HeightError := "Height must be a positive number"

  /** `typeof v === 'number' && v > 0` */
  predicate Positive(d: Dimension) {
    d.Number? && d.value > 0
  }

  function SuccessText(width: int, height: int): string {
    "Viewport resized to " + IntToString(width) + "x" + IntToString(height) + " pixels"
  }

  function FailureText(message: string): string {
    "Failed to resize viewport: " + message
  }

  function Execute(width: Dimension, height: Dimension, setter: SetterOutcome): (r: ResizeResult)
    ensures !Positive(width) ==> r == ResizeResult([], Response(WidthError, true))
    ensures Positive(width) && !Positive(height) ==> r == ResizeResult([], Response(HeightError, true))
    ensures Positive(width) && Positive(height) ==>
      && r.setterCalls == [Viewport(width.value, height.value)]
      && (setter.Succeeds? ==> r.response == Response(SuccessText(width.value, height.value), false))
      && (setter.Throws? ==> r.response == Response(FailureText(setter.message), true))
  {
    if !Positive(width) then ResizeResult([], Response(WidthError, true))
    else if !Positive(height) then ResizeResult([], Response(HeightError, true))
    else
      var size := Viewport(width.value, height.value);
      match setter
      case Succeeds => ResizeResult([size], Response(SuccessText(width.value, height.value), false))
      case Throws(m) => ResizeResult([size], Response(FailureText(m), true))
  }

  /** The setter is called, exactly once, exactly when both dimensions are
      positive numbers; the response is an error exactly when validation or
      the setter failed. */
  lemma SetterCalledIffValid(width: Dimension, height: Dimension, setter: SetterOutcome)
    ensures var r := Execute(width, height, setter);
      && (|r.setterCalls| > 0 <==> Positive(width) && Positive(height))
      && |r.setterCalls| <= 1
      && (r.response.isError <==> !Positive(width) || !Positive(height) || setter.Throws?)
  {
  }

  /** The success text names the new size, and reading the two numbers back
      out of it gives the requested width and height. */
  lemma SuccessTextNamesSize(width: int, height: int)
    requires width > 0 && height > 0
    ensures var w, h := IntToString(width), IntToString(height);
      && SuccessText(width, height) == "Viewport resized to " + w + "x" + h + " pixels"
      && AllDigits(w) && AllDigits(h)
      && DecimalValue(w) == width && DecimalValue(h) == height
  {
    DecimalRoundTrip(width);
    DecimalRoundTrip(height);
  }

  /** The width is validated first: when both dimensions are invalid, the
      width error is the one reported. */
  lemma WidthCheckedFirst(width: Dimension, height: Dimension, setter: SetterOutcome)
    requires !Positive(width) && !Positive(height)
    ensures Execute(width, height, setter).response.text == WidthError
  {
  }

  lemma RenderedSizes()
    ensures IntToString(1920) == "1920" && IntToString(1080) == "1080"
    ensures IntToString(375) == "375" && IntToString(667) == "667"
    ensures IntToString(768) == "768" && IntToString(1024) == "1024"
  {
    assert DigitChar(0) == '0' && DigitChar(1) == '1' && DigitChar(2) == '2' && DigitChar(3) == '3';
    assert DigitChar(4) == '4' && DigitChar(5) == '5' && DigitChar(6) == '6' && DigitChar(7) == '7';
    assert DigitChar(8) == '8' && DigitChar(9) == '9';
    assert NatToString(19) == "19" && NatToString(192) == "192";
    assert NatToString(10) == "10" && NatToString(108) == "108";
    assert NatToString(37) == "37" && NatToString(66) == "66";
    assert NatToString(76) == "76" && NatToString(102) == "102";
  }

  /** A valid size with a working setter: one call, and the success text
      built from the two renderings. */
  lemma ResizeSucceeds(width: int, height: int, w: string, h: string)
    requires width > 0 && height > 0 && IntToString(width) == w && IntToString(height) == h
    ensures Execute(Number(width), Number(height), Succeeds) ==
      ResizeResult([Viewport(width, height)], Response("Viewport resized to " + w + "x" + h + " pixels", false))
  {
  }

  /** The successful cases of the tool's own tests: 1920x1080, 375x667 and
      768x1024 each make one setter call and report the size. */
  lemma ResizeSuccessExamples()
    ensures Execute(Number(1920), Number(1080), Succeeds) ==
      ResizeResult([Viewport(1920, 1080)], Response("Viewport resized to 1920x1080 pixels", false))
    ensures Execute(Number(375), Number(667), Succeeds) ==
      ResizeResult([Viewport(375, 667)], Response("Viewport resized to 375x667 pixels", false))
    ensures Execute(Number(768), Number(1024), Succeeds) ==
      ResizeResult([Viewport(768, 1024)], Response("Viewport resized to 768x1024 pixels", false))
  {
    RenderedSizes();
    ResizeSucceeds(1920, 1080, "1920", "1080");
    ResizeSucceeds(375, 667, "375", "667");
    ResizeSucceeds(768, 1024, "768", "1024");
    assert "Viewport resized to " + "1920" + "x" + "1080" + " pixels" == "Viewport resized to 1920x1080 pixels";
    assert "Viewport resized to " + "375" + "x" + "667" + " pixels" == "Viewport resized to 375x667 pixels";
    assert "Viewport resized to " + "768" + "x" + "1024" + " pixels" == "Viewport resized to 768x1024 pixels";
  }

  /** The rejected and failing cases of the tool's own tests: a zero width, a
      negative height and non-numeric values are rejected without a call, and
      a throwing setter yields the failure text after its one call. */
  lemma ResizeExamples()
    ensures Execute(Number(1920), Number(1080), Throws("Resize failed")).setterCalls == [Viewport(1920, 1080)]
    ensures Execute(Number(0), Number(800), Succeeds) == ResizeResult([], Response(WidthError, true))
    ensures Execute(Number(1200), Number(-100), Succeeds) == ResizeResult([], Response(HeightError, true))
    ensures Execute(NotNumber, Number(800), Succeeds) == ResizeResult([], Response(WidthError, true))
    ensures Execute(Number(1200), NotNumber, Succeeds) == ResizeResult([], Response(HeightError, true))
    ensures Execute(Number(1920), Number(1080), Throws("Resize failed")).response
      == Response("Failed to resize viewport: Resize failed", true)
  {
  }
}
