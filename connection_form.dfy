/** The connection form: two text fields and the `error` it shows, and `handleSubmit`, which
    checks the fields and hands the trimmed values to `onConnect`. */
module ConnectionForm {
  import opened Wrappers
  import opened JsText
  import opened GitHubTypes

  const TokenRequired := "GitHub token is required"
  const RepositoryRequired := "Repository name is required"
  const ConnectionFailed := "Connection failed"

  /** How the awaited `onConnect` settles: it resolves, rejects with an `Error` carrying a
      message, or rejects with a value that is not an `Error`. */
  datatype Settlement = Resolved | RejectedWithError(message: string) | RejectedWithValue

  /** Both fields are filled in: neither is blank after `trim()`. */
  predicate Filled(token: string, repository: string)
  {
    !AllWhitespace(token) && !AllWhitespace(repository)
  }

  class ConnectionForm {
    var token: string
    var repository: string
    var error: string

    constructor ()
      ensures token == "" && repository == "" && error == ""
    {
      token := "";
      repository := "";
      error := "";
    }

    /** The token field's `onChange`. */
    method SetToken(value: string)
      modifies this`token
      ensures token == value
    {
      token := value;
    }

    /** The repository field's `onChange`. */
    method SetRepository(value: string)
      modifies this`repository
      ensures repository == value
    {
      repository := value;
    }

    /** `handleSubmit`. `outcome` is how `onConnect` settles if it is called; the result is the
        configuration it was called with, `None` when it was not called. */
    method HandleSubmit(outcome: Settlement) returns (call: Option<ConnectionConfig>)
      modifies this`error
      ensures AllWhitespace(token) ==> call.None? && error == TokenRequired
      ensures !AllWhitespace(token) && AllWhitespace(repository) ==> call.None? && error == RepositoryRequired
      ensures Filled(token, repository) ==> call == Some(ConnectionConfig(Trim(token), "", Trim(repository)))
      ensures Filled(token, repository) && outcome.Resolved? ==> error == ""
      ensures Filled(token, repository) && outcome.RejectedWithError? ==> error == outcome.message
      ensures Filled(token, repository) && outcome.RejectedWithValue? ==> error == ConnectionFailed
      ensures call.Some? ==>
        call.value.token != "" && Trim(call.value.token) == call.value.token &&
        call.value.repository != "" && Trim(call.value.repository) == call.value.repository
    {
      error := "";
      TrimEmptyIffBlank(token);
      if Trim(token) == "" {
        error := TokenRequired;
        return None;
      }
      TrimEmptyIffBlank(repository);
      if Trim(repository) == "" {
        error := RepositoryRequired;
        return None;
      }
      TrimIdempotent(token);
      TrimIdempotent(repository);
      call := Some(ConnectionConfig(Trim(token), "", Trim(repository)));
      match outcome {
        case Resolved =>
        case RejectedWithError(m) =>
          error := m;
        case RejectedWithValue =>
          error := ConnectionFailed;
      }
    }
  }
}
