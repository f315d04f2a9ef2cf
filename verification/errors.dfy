/** The gateway's closed error taxonomy, the classifier that turns a D-Bus
    failure into one of its three kinds, and the HTTP rendering of each kind. */
module Errors {
  import opened Wrappers
  import opened Text

  /** The three API error kinds. */
  datatype ServiceError = InvalidUnit | Unexpected | Unauthorized

  /** A failure reported by the D-Bus layer. `MethodError` is a reply of
      type error from the remote object, carrying the error name and the
      optional human-readable message; every other failure of the bus
      (transport, addressing, marshalling, ...) is `OtherError`. */
  datatype DBusError =
    | MethodError(name: string, message: Option<string>)
    | OtherError(description: string)

  /** Why the `Authorization: Bearer` header could not be extracted. */
  datatype HeaderRejection = MissingHeader | MalformedHeader(reason: string)

  const NoSuchUnitName: string := "org.freedesktop.systemd1.NoSuchUnit"
  const InvalidArgsName: string := "org.freedesktop.DBus.Error.InvalidArgs"
  const InvalidUnitNamePrefix: string := "Unit name"
  const InvalidUnitNameSuffix: string := "is not valid."

  /** The argument-validation message systemd gives for a malformed unit
      name: "Unit name ... is not valid." */
  predicate IsInvalidNameMessage(message: string)
  {
    StartsWith(message, InvalidUnitNamePrefix) && EndsWith(message, InvalidUnitNameSuffix)
  }

  /** Does this (error name, message) pair say that the unit is unknown or
      its name invalid? */
  predicate IsInvalidUnit(name: string, message: string)
  {
    name == NoSuchUnitName || (name == InvalidArgsName && IsInvalidNameMessage(message))
  }

  /** Conversion of a D-Bus failure into an API error. Only a method error
      that carries a message is ever classified; the message is consulted
      only for the argument-validation error. */
  function FromDBus(e: DBusError): (k: ServiceError)
    ensures k != Unauthorized
  {
    match e
    case MethodError(name, Some(message)) =>
      if IsInvalidUnit(name, message) then InvalidUnit else Unexpected
    case _ => Unexpected
  }

  /** Every header-extraction failure means the caller is not authorized. */
  function FromHeaderRejection(rejection: HeaderRejection): (k: ServiceError)
    ensures k == Unauthorized
  {
    Unauthorized
  }

  /** The full characterisation of the classifier: `InvalidUnit` exactly for
      a message-carrying `NoSuchUnit`, or a message-carrying `InvalidArgs`
      whose message has the invalid-name shape; `Unexpected` otherwise. */
  lemma FromDBusClassification(e: DBusError)
    ensures FromDBus(e) == InvalidUnit <==>
      && e.MethodError?
      && e.message.Some?
      && (|| e.name == NoSuchUnitName
          || (e.name == InvalidArgsName && IsInvalidNameMessage(e.message.value)))
    ensures FromDBus(e) == Unexpected <==> FromDBus(e) != InvalidUnit
  {
  }

  /** The argument-validation error is an `InvalidUnit` only when its
      message has the invalid-name shape. */
  lemma InvalidArgsDependsOnMessage(message: string)
    ensures (FromDBus(MethodError(InvalidArgsName, Some(message))) == InvalidUnit)
              <==> IsInvalidNameMessage(message)
  {
  }

  /** A method error without a message is `Unexpected`, whatever its name,
      `NoSuchUnit` included. */
  lemma MessagelessIsUnexpected(name: string)
    ensures FromDBus(MethodError(name, None)) == Unexpected
  {
  }

  /** Pinned signatures: messages systemd is known to send. */
  lemma KnownSignatures()
    ensures FromDBus(MethodError(NoSuchUnitName, Some("Unit nginx.service not loaded."))) == InvalidUnit
    ensures FromDBus(MethodError(InvalidArgsName, Some("Unit name foo@.service is not valid."))) == InvalidUnit
    ensures FromDBus(MethodError(InvalidArgsName, Some("Unit name foo@.service is not valid"))) == Unexpected
    ensures FromDBus(MethodError("org.freedesktop.DBus.Error.AccessDenied", Some("Access denied"))) == Unexpected
    ensures FromDBus(OtherError("connection reset")) == Unexpected
  {
    var m := "Unit name foo@.service is not valid.";
    assert m[..|InvalidUnitNamePrefix|] == InvalidUnitNamePrefix;
    assert m[|m| - |InvalidUnitNameSuffix|..] == InvalidUnitNameSuffix;
    var n := "Unit name foo@.service is not valid";
    assert n[|n| - |InvalidUnitNameSuffix|..] != InvalidUnitNameSuffix by {
      assert n[|n| - 1] != InvalidUnitNameSuffix[|InvalidUnitNameSuffix| - 1];
    }
    assert "org.freedesktop.DBus.Error.AccessDenied" != NoSuchUnitName by {
      assert "org.freedesktop.DBus.Error.AccessDenied"[16] != NoSuchUnitName[16];
    }
    assert "org.freedesktop.DBus.Error.AccessDenied" != InvalidArgsName by {
      assert "org.freedesktop.DBus.Error.AccessDenied"[27] != InvalidArgsName[27];
    }
  }

  // ------------------------------------------------------------ rendering

  const InvalidUnitText: string := "Invalid unit name"
  const UnexpectedText: string := "The server encountered an unexpected error"
  const UnauthorizedText: string := "Invalid authorization token"

  /** The JSON error body `{"error": ...}`. */
  datatype ErrorResponse = ErrorResponse(error: string)

  /** An HTTP response carrying an error body. */
  datatype ErrorReply = ErrorReply(status: nat, body: ErrorResponse)

  /** The display text of each kind. */
  function Message(k: ServiceError): string
  {
    match k
    case InvalidUnit => InvalidUnitText
    case Unexpected => UnexpectedText
    case Unauthorized => UnauthorizedText
  }

  /** The HTTP status of each kind. */
  function StatusCode(k: ServiceError): nat
  {
    match k
    case InvalidUnit => 400
    case Unexpected => 500
    case Unauthorized => 401
  }

  /** `IntoResponse`: the status of the kind with its fixed text as body. */
  function Render(k: ServiceError): (reply: ErrorReply)
    ensures reply.status in {400, 401, 500}
    ensures reply.body.error in {InvalidUnitText, UnexpectedText, UnauthorizedText}
    ensures k == InvalidUnit <==> reply.status == 400
    ensures k == Unauthorized <==> reply.status == 401
    ensures k == Unexpected <==> reply.status == 500
  {
    ErrorReply(StatusCode(k), ErrorResponse(Message(k)))
  }

  /** Rendering loses nothing: distinct kinds give distinct statuses and
      distinct texts, so a reply identifies its kind. */
  lemma RenderInjective(a: ServiceError, b: ServiceError)
    ensures Render(a).status == Render(b).status <==> a == b
    ensures Render(a).body == Render(b).body <==> a == b
  {
  }

  /** Any failure to extract the bearer header reaches the client as 401
      with the fixed unauthorized text, whatever the reason. */
  lemma HeaderRejectionIs401(rejection: HeaderRejection)
    ensures Render(FromHeaderRejection(rejection)) == ErrorReply(401, ErrorResponse(UnauthorizedText))
  {
  }

  /** A D-Bus failure reaches the client as one of two fixed replies; the
      remote error name and message never appear in it. */
  lemma DBusReplyIsFixed(e: DBusError)
    ensures Render(FromDBus(e)) == ErrorReply(400, ErrorResponse(InvalidUnitText))
         || Render(FromDBus(e)) == ErrorReply(500, ErrorResponse(UnexpectedText))
  {
  }
}
