/** The editor toolbar's image-embed popover: a URL field, a caption field and a
    visibility flag, driven by the toolbar button, Escape, Cancel and Submit. */
module EmbedImage {
  import opened Wrappers
  import opened JsText

  /** The arguments of one `onSubmit(url, alt)` call. */
  datatype Submission = Submission(url: string, alt: string)

  /** What Submit hands to `onSubmit`: nothing for a URL that is blank after
      trimming, otherwise the URL as typed and the caption. */
  function SubmitOutcome(url: string, alt: string): Option<Submission>
  {
    if Trim(url) == "" then None else Some(Submission(url, alt))
  }

  /** Submit calls `onSubmit` exactly when the URL has a non-whitespace character,
      and then with the URL untrimmed and the caption as typed. */
  lemma SubmitOutcomeSpec(url: string, alt: string)
    ensures SubmitOutcome(url, alt).None? <==> forall i :: 0 <= i < |url| ==> IsJsWhitespace(url[i])
    ensures SubmitOutcome(url, alt).Some? ==> SubmitOutcome(url, alt).value == Submission(url, alt)
  {
    TrimEmptyIffBlank(url);
  }

  class EmbedImageForm {
    var url: string
    var alt: string
    var visible: bool

    constructor ()
      ensures url == "" && alt == "" && !visible
    {
      url, alt := "", "";
      visible := false;
    }

    /** Typing in the URL field. */
    method SetUrl(s: string)
      modifies this`url
      ensures url == s
    {
      url := s;
    }

    /** Typing in the caption field. */
    method SetAlt(s: string)
      modifies this`alt
      ensures alt == s
    {
      alt := s;
    }

    method ShowForm()
      modifies this`visible
      ensures visible
    {
      visible := true;
    }

    /** `hideForm`: hides and keeps both fields; hiding twice is hiding once. */
    method HideForm()
      modifies this`visible
      ensures !visible
    {
      visible := false;
    }

    /** The toolbar button: hides a visible form, shows a hidden one. */
    method ToggleButton()
      modifies this`visible
      ensures visible == !old(visible)
    {
      if visible {
        HideForm();
      } else {
        ShowForm();
      }
    }

    /** A key press inside the popover: Escape hides it. */
    method KeyDown(key: string)
      modifies this`visible
      ensures visible == (old(visible) && key != "Escape")
    {
      if key == "Escape" {
        HideForm();
      }
    }

    /** The Cancel button. */
    method Cancel()
      modifies this`visible
      ensures !visible
    {
      HideForm();
    }

    /** `handleSubmit`: the form is hidden in every case; the fields are cleared
      only after a call to `onSubmit`, which `sent` reports. */
    method HandleSubmit() returns (sent: Option<Submission>)
      modifies this`url, this`alt, this`visible
      ensures sent == SubmitOutcome(old(url), old(alt))
      ensures !visible
      ensures sent.None? ==> url == old(url) && alt == old(alt)
      ensures sent.Some? ==> url == "" && alt == ""
    {
      if Trim(url) == "" {
        HideForm();
        return None;
      }
      sent := Some(Submission(url, if alt != "" then alt else ""));
      url := "";
      alt := "";
      HideForm();
    }
  }
}
