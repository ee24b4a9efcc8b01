/** The two retry settings the action engine reads from its configuration. */
module Config {
  /** Attempts `call_tool_with_retry` makes by default. */
  const MAX_RETRIES: int := 3

  /** Base backoff delay in seconds; the wait before retry r is RETRY_DELAY * 2^(r-1). */
  const RETRY_DELAY: nat := 1
}
