/**
 * How the model sees the external reasoning service.  Every call site
 * sends a prompt and gets text back; the model does not follow the text,
 * only what the call site makes of it.
 */
module Oracle {

  /**
   * The outcome of one oracle call at a call site that parses JSON:
   *  - Raised: the call (or a conversion the local handler does not catch) raised;
   *  - Malformed: `json.loads` or a value conversion failed, and the local handler caught it;
   *  - Parsed: the JSON object, as the fields the call site reads (each optional).
   */
  datatype Reply<+T> = Raised | Malformed | Parsed(fields: T)

  /**
   * A collaborator the session manager creates for each call (calculator,
   * generator, finalizer).  Unavailable: creating or calling it raised, and the
   * session manager's own fallback applies.  Available: it ran, seeing `reply`.
   */
  datatype Component<+T> = Unavailable | Available(reply: T)
}
