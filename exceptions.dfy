/** The SDK's exception hierarchy (waveq/exceptions.py). Every exception is a
    `WaveQException` carrying a message and an optional HTTP status code;
    each subclass fixes the status code and may add one field. */
module Exceptions {
  import opened Common

  /** One constructor per exception class. The status code is not stored
      for the subclasses: their `__init__` always passes the same one. */
  datatype WaveQError =
    | WaveQException(message: string, code: Option<int>)
    | AuthenticationError(message: string)
    | ValidationError(message: string, field: Option<string>)
    | ProcessingError(message: string, taskId: Option<string>)
    | ResourceNotFoundError(message: string)
    | RateLimitError(message: string, retryAfter: Option<int>)
    | InvalidAudioFormatError(message: string, formatProvided: string, supportedFormats: Option<seq<string>>)
  {
    /** The `status_code` attribute. */
    function StatusCode(): Option<int>
    {
      match this
      case WaveQException(_, code) => code
      case AuthenticationError(_) => Some(401)
      case ValidationError(_, _) => Some(400)
      case ProcessingError(_, _) => Some(500)
      case ResourceNotFoundError(_) => Some(404)
      case RateLimitError(_, _) => Some(429)
      case InvalidAudioFormatError(_, _, _) => Some(400)
    }

    /** `isinstance(e, ValidationError)`. */
    predicate IsValidationError()
    {
      ValidationError? || InvalidAudioFormatError?
    }

    /** The `field` attribute of a validation error. */
    function Field(): Option<string>
      requires IsValidationError()
    {
      if ValidationError? then field else Some("audio_file")
    }
  }

  const DefaultAuthenticationMessage := "Authentication failed"
  const DefaultNotFoundMessage := "Resource not found"
  const DefaultRateLimitMessage := "Rate limit exceeded"

  /** `WaveQException(message, status_code)`: both stored as given. */
  function NewWaveQException(message: string, statusCode: Option<int>): (e: WaveQError)
    ensures e.message == message && e.StatusCode() == statusCode
  {
    WaveQException(message, statusCode)
  }

  /** `AuthenticationError(message=...)`; `None` stands for the omitted argument. */
  function NewAuthenticationError(message: Option<string>): (e: WaveQError)
    ensures e.StatusCode() == Some(401)
    ensures e.message == if message.Some? then message.value else DefaultAuthenticationMessage
  {
    AuthenticationError(if message.Some? then message.value else DefaultAuthenticationMessage)
  }

  function NewValidationError(message: string, field: Option<string>): (e: WaveQError)
    ensures e.StatusCode() == Some(400) && e.IsValidationError()
    ensures e.message == message && e.Field() == field
  {
    ValidationError(message, field)
  }

  function NewProcessingError(message: string, taskId: Option<string>): (e: WaveQError)
    ensures e.StatusCode() == Some(500) && !e.IsValidationError()
    ensures e.message == message
  {
    ProcessingError(message, taskId)
  }

  function NewResourceNotFoundError(message: Option<string>): (e: WaveQError)
    ensures e.StatusCode() == Some(404)
    ensures e.message == if message.Some? then message.value else DefaultNotFoundMessage
  {
    ResourceNotFoundError(if message.Some? then message.value else DefaultNotFoundMessage)
  }

  function NewRateLimitError(message: Option<string>, retryAfter: Option<int>): (e: WaveQError)
    ensures e.StatusCode() == Some(429) && e.RateLimitError? && e.retryAfter == retryAfter
    ensures e.message == if message.Some? then message.value else DefaultRateLimitMessage
  {
    RateLimitError(if message.Some? then message.value else DefaultRateLimitMessage, retryAfter)
  }

  const InvalidFormatPrefix := "Invalid audio format: "
  const SupportedFormatsInfix := ". Supported formats: "

  /** `InvalidAudioFormatError(format_provided, supported_formats)`: the list
      of supported formats is appended to the message only when it is a
      non-empty list. */
  function NewInvalidAudioFormatError(formatProvided: string, supportedFormats: Option<seq<string>>): (e: WaveQError)
    ensures e.IsValidationError() && e.Field() == Some("audio_file") && e.StatusCode() == Some(400)
    ensures InvalidFormatPrefix + formatProvided <= e.message
    ensures supportedFormats.None? || supportedFormats.value == [] ==>
              e.message == InvalidFormatPrefix + formatProvided
    ensures supportedFormats.Some? && supportedFormats.value != [] ==>
              e.message == InvalidFormatPrefix + formatProvided + SupportedFormatsInfix + Join(", ", supportedFormats.value)
  {
    var base := InvalidFormatPrefix + formatProvided;
    var message :=
      if supportedFormats.Some? && supportedFormats.value != []
      then base + SupportedFormatsInfix + Join(", ", supportedFormats.value)
      else base;
    InvalidAudioFormatError(message, formatProvided, supportedFormats)
  }
}
