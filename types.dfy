/** The rate-limit error the client returns for status 429. */
module Types {
  import opened Strconv

  /** The fixed text before the quoted reset time. */
  const RateLimitPrefix: string := "Rate limit will reset at: '"

  /** A rate-limit failure carrying the epoch second at which the limit window resets. */
  datatype RateLimitError = RateLimitError(resetsAt: Int64) {

    /** The error text: the reset time written with %d, in single quotes after a fixed prefix. */
    function Error(): (msg: string)
      ensures |msg| > |RateLimitPrefix| + 1
      ensures msg[..|RateLimitPrefix|] == RateLimitPrefix && msg[|msg| - 1] == '\''
      ensures QuotedText(msg) == FormatInt(resetsAt)
    {
      var msg := RateLimitPrefix + FormatInt(resetsAt) + "'";
      assert msg[|RateLimitPrefix|..|msg| - 1] == FormatInt(resetsAt);
      msg
    }
  }

  /** The text between the prefix and the closing quote of a rate-limit message. */
  function QuotedText(msg: string): string
    requires |msg| > |RateLimitPrefix|
  {
    msg[|RateLimitPrefix|..|msg| - 1]
  }

  /** Round trip: the quoted text parses back, with ParseInt, to the reset time. */
  lemma ErrorParsesBack(e: RateLimitError)
    ensures ParseInt(QuotedText(e.Error())) == Parsed(e.resetsAt, NoError)
  {
    FormatIntParses(e.resetsAt);
  }

  /** Distinct reset times give distinct messages. */
  lemma ErrorInjective(a: RateLimitError, b: RateLimitError)
    requires a.Error() == b.Error()
    ensures a == b
  {
    FormatIntInjective(a.resetsAt, b.resetsAt);
  }
}
