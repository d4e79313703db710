/**
 * The server-side availability flags of lib/server-api-status.ts: three module-level booleans
 * that the mark functions set and the reset functions clear. The module's state is one object
 * here; the log lines the functions print are not modelled.
 */
module ApiStatus {

  class Flags {
    var geminiQuotaExceeded: bool
    var geminiApiError: bool
    var openaiQuotaExceeded: bool

    /** The state at module load: every flag false, so Gemini is to be used. */
    constructor ()
      ensures !geminiQuotaExceeded && !geminiApiError && !openaiQuotaExceeded
      ensures ShouldUseGemini()
    {
      geminiQuotaExceeded := false;
      geminiApiError := false;
      openaiQuotaExceeded := false;
    }

    /** `shouldUseGemini`: neither Gemini flag is set; the OpenAI flag plays no part. */
    predicate ShouldUseGemini()
      reads this
      ensures ShouldUseGemini() ==> !geminiQuotaExceeded && !geminiApiError
      ensures geminiQuotaExceeded || geminiApiError || ShouldUseGemini()
    {
      !geminiQuotaExceeded && !geminiApiError
    }

    /** `markGeminiQuotaExceeded`: sets the quota flag only; Gemini is then off. */
    method MarkGeminiQuotaExceeded()
      modifies this
      ensures geminiQuotaExceeded
      ensures geminiApiError == old(geminiApiError) && openaiQuotaExceeded == old(openaiQuotaExceeded)
      ensures !ShouldUseGemini()
    {
      geminiQuotaExceeded := true;
    }

    /** `markGeminiApiError`: sets the error flag only; Gemini is then off. */
    method MarkGeminiApiError()
      modifies this
      ensures geminiApiError
      ensures geminiQuotaExceeded == old(geminiQuotaExceeded) && openaiQuotaExceeded == old(openaiQuotaExceeded)
      ensures !ShouldUseGemini()
    {
      geminiApiError := true;
    }

    /** `markOpenAIQuotaExceeded`: sets the OpenAI flag only, which does not bear on Gemini. */
    method MarkOpenAIQuotaExceeded()
      modifies this
      ensures openaiQuotaExceeded
      ensures geminiQuotaExceeded == old(geminiQuotaExceeded) && geminiApiError == old(geminiApiError)
      ensures ShouldUseGemini() == old(ShouldUseGemini())
    {
      openaiQuotaExceeded := true;
    }

    /** `resetGeminiStatus`: clears both Gemini flags and keeps the OpenAI flag. */
    method ResetGeminiStatus()
      modifies this
      ensures !geminiQuotaExceeded && !geminiApiError
      ensures openaiQuotaExceeded == old(openaiQuotaExceeded)
      ensures ShouldUseGemini()
    {
      geminiQuotaExceeded := false;
      geminiApiError := false;
    }

    /** `resetAllApiStatus`: clears all three flags. */
    method ResetAllApiStatus()
      modifies this
      ensures !geminiQuotaExceeded && !geminiApiError && !openaiQuotaExceeded
      ensures ShouldUseGemini()
    {
      geminiQuotaExceeded := false;
      geminiApiError := false;
      openaiQuotaExceeded := false;
    }
  }
}
