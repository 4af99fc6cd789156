/** `CommentForm`: a text area with a 500-character guide, a submit that waits for a
    simulated 500 ms request, and keyboard shortcuts. The `await` splits `handleSubmit`
    into `Submit` (up to the delay) and `DelayElapsed` (after it). */
module CommentFormModel {
  import opened Text

  const MaxLength: nat := 500

  /** The submit button is enabled: non-blank text, at most 500 UTF-16 code units (the
      `comment.length` of JavaScript), and no submit in progress. */
  function CanSubmit(text: string, isSubmitting: bool): (b: bool)
    ensures b ==> |text| <= MaxLength && !isSubmitting
  {
    Trim(text) != [] && Utf16Length(text) <= MaxLength && !isSubmitting
  }

  /** The character counter is drawn in red: more than 500 code units, which more
      than 500 characters always are and at most 250 never are. */
  function OverLimit(text: string): (b: bool)
    ensures |text| > MaxLength ==> b
    ensures b ==> 2 * |text| > MaxLength
  {
    Utf16Length(text) > MaxLength
  }

  /** The counter text `"<length>/500"`, the length in code units. */
  function Counter(text: string): (s: string)
    ensures |s| > 4 && s[|s| - 4..] == "/500" && ParseDecimal(s[..|s| - 4]) == Utf16Length(text)
  {
    var n := Utf16Length(text);
    var s := Decimal(n) + "/500";
    DecimalRoundTrip(n);
    assert s[..|s| - 4] == Decimal(n);
    s
  }

  /** The button is enabled exactly when the text is neither blank nor over the limit and no submit runs. */
  lemma CanSubmitMeans(text: string, isSubmitting: bool)
    ensures CanSubmit(text, isSubmitting) <==>
              !AllSpace(text) && !OverLimit(text) && !isSubmitting
  {
    TrimEmptyIff(text);
  }

  /** Three hundred emoji, each beyond the Basic Multilingual Plane, are six hundred
      code units: the counter reads 600 in red and the button is disabled. */
  lemma EmojiOverLimit(text: string)
    requires text == seq(300, _ => '\U{1F600}')
    ensures Utf16Length(text) == 600
    ensures OverLimit(text) && !CanSubmit(text, false)
  {
    Utf16LengthExtremes(text);
  }

  class CommentForm {
    var text: string
    var isSubmitting: bool

    /** A submit is in flight only for non-blank text. */
    ghost predicate Valid()
      reads this
    {
      isSubmitting ==> Trim(text) != []
    }

    constructor ()
      ensures Valid() && text == [] && !isSubmitting
    {
      text := [];
      isSubmitting := false;
    }

    /** `handleTextareaChange`; the text area is disabled while submitting. */
    method Change(value: string)
      requires Valid() && !isSubmitting
      modifies this`text
      ensures Valid() && text == value
    {
      text := value;
    }

    /** `handleSubmit` up to the `await`: blank text returns at once, anything else
        starts a submit, whatever its length. */
    method Submit() returns (started: bool)
      requires Valid() && !isSubmitting
      modifies this`isSubmitting
      ensures Valid()
      ensures started <==> !AllSpace(text)
      ensures isSubmitting == started
    {
      TrimEmptyIff(text);
      if Trim(text) == [] {
        started := false;
      } else {
        isSubmitting := true;
        started := true;
      }
    }

    /** `handleSubmit` after the 500 ms delay: `onSubmit` receives the trimmed text,
        which is never blank, and the form is emptied and re-enabled. */
    method DelayElapsed() returns (delivered: string)
      requires Valid() && isSubmitting
      modifies this`text, this`isSubmitting
      ensures Valid()
      ensures delivered == Trim(old(text)) && delivered != []
      ensures !IsSpace(delivered[0]) && !IsSpace(delivered[|delivered| - 1])
      ensures text == [] && !isSubmitting
    {
      delivered := Trim(text);
      text := [];
      isSubmitting := false;
    }

    /** `handleKeyDown`: Ctrl or Cmd with Enter runs the same `handleSubmit`, which checks
        only for blank text; Escape calls `onCancel`. */
    method KeyDown(key: string, ctrlKey: bool, metaKey: bool) returns (started: bool, cancelled: bool)
      requires Valid() && !isSubmitting
      modifies this`isSubmitting
      ensures Valid()
      ensures started <==> (ctrlKey || metaKey) && key == "Enter" && !AllSpace(text)
      ensures isSubmitting == started
      ensures cancelled <==> key == "Escape"
    {
      started := false;
      if (ctrlKey || metaKey) && key == "Enter" {
        started := Submit();
      }
      cancelled := key == "Escape";
    }
  }

  /** Text of 501 letters has a disabled button and a red counter, yet Ctrl+Enter
      submits it and `onSubmit` receives it. */
  method OverLimitKeyboardSubmit() returns (delivered: string)
    ensures OverLimit(delivered) && |delivered| == 501
  {
    var long := seq(501, _ => 'a');
    var form := new CommentForm();
    form.Change(long);
    assert !IsSpace(long[0]);
    assert !CanSubmit(form.text, form.isSubmitting) && OverLimit(form.text);
    var started, cancelled := form.KeyDown("Enter", true, false);
    assert started;
    delivered := form.DelayElapsed();
    assert TrimStart(long) == long by {
      assert !IsSpace(long[0]);
    }
    assert TrimEnd(long) == long by {
      assert !IsSpace(long[|long| - 1]);
    }
  }

  /** Whitespace-only text: the button is disabled and neither the button nor the
      keyboard starts a submit. */
  method BlankTextIgnored() returns (started: bool)
    ensures !started
  {
    var form := new CommentForm();
    form.Change("   ");
    assert AllSpace(form.text);
    CanSubmitMeans(form.text, form.isSubmitting);
    assert !CanSubmit(form.text, form.isSubmitting);
    var cancelled;
    started, cancelled := form.KeyDown("Enter", false, true);
  }
}
