/** The trigger dispatcher (pkg/triggers/dispatcher.go): decode the
    envelope, route it by its trigger source to at most one handler, write
    the handler's encoded response into the envelope and encode it again.

    The JSON library, the process environment and the SNS publisher are
    the invocation's external collaborators and come in as one `Env`. */
module Dispatcher {
  import opened Wrappers
  import opened Cognito

  // Cognito trigger sources
  const PreSignUpSource := "PreSignUp_SignUp"
  const PreSignUpAdminCreateUserSource := "PreSignUp_AdminCreateUser"
  const PostConfirmationConfirmSignUpSource := "PostConfirmation_ConfirmSignUp"
  const PostConfirmationConfirmForgotPasswordSource := "PostConfirmation_ConfirmForgotPassword"
  const PreAuthenticationSource := "PreAuthentication_Authentication"
  const PostAuthenticationSource := "PostAuthentication_Authentication"
  const PreTokenHostedAuthSource := "TokenGeneration_HostedAuth"
  const PreTokenAuthenticationSource := "TokenGeneration_Authentication"
  const PreTokenNewPasswordChallengeSource := "TokenGeneration_NewPasswordChallenge"
  const PreTokenAuthenticateDeviceSource := "TokenGeneration_AuthenticateDevice"
  const PreTokenRefreshTokensSource := "TokenGeneration_RefreshTokens"

  /** The token-generation sources, all sent down the pre-authentication path. */
  const TokenGenerationSources: set<string> :=
    {PreTokenHostedAuthSource, PreTokenAuthenticationSource, PreTokenNewPasswordChallengeSource,
     PreTokenAuthenticateDeviceSource, PreTokenRefreshTokensSource}

  /** Every source for which a handler runs. */
  const RoutedSources: set<string> :=
    {PreSignUpSource, PreAuthenticationSource, PostConfirmationConfirmSignUpSource} + TokenGenerationSources

  /** The dispatch methods, one per request shape. */
  datatype Trigger = PreSignUpTrigger | PreAuthenticationTrigger | PreTokenTrigger | PostConfirmationTrigger

  /** `encoding/json` as the dispatcher uses it, each call either succeeding
      or failing: decode the envelope, decode the `userAttributes` of a
      trigger's request, encode a handler response, encode the envelope. */
  datatype Codec = Codec(
    unmarshalEnvelope: RawMessage -> Option<Envelope>,
    unmarshalRequest: (Trigger, RawMessage) -> Option<AttrMap>,
    marshalResponse: Response -> Option<RawMessage>,
    marshalEnvelope: Envelope -> Option<RawMessage>)

  datatype Env = Env(codec: Codec, config: Config, publish: PublishInput -> PublishResult)

  /** The routing switch: an exact match of the trigger source. */
  function Route(source: string): (t: Option<Trigger>)
    ensures t.Some? <==> source in RoutedSources
    ensures t == Some(PreSignUpTrigger) <==> source == PreSignUpSource
    ensures t == Some(PreAuthenticationTrigger) <==>
              source == PreAuthenticationSource || source in TokenGenerationSources
    ensures t == Some(PostConfirmationTrigger) <==> source == PostConfirmationConfirmSignUpSource
    ensures t != Some(PreTokenTrigger)
  {
    if source == PreSignUpSource then Some(PreSignUpTrigger)
    else if source == PreAuthenticationSource then Some(PreAuthenticationTrigger)
    else if source == PostConfirmationConfirmSignUpSource then Some(PostConfirmationTrigger)
    else if source in TokenGenerationSources then Some(PreAuthenticationTrigger)
    else None
  }

  /** The marshalled bytes of a handler response, as a raw message. */
  function RawResponse(codec: Codec, res: Response): (raw: Result<RawMessage, Error>)
    ensures raw.Success? <==> codec.marshalResponse(res).Some?
    ensures raw.Success? ==> raw.value == codec.marshalResponse(res).value
    ensures raw.Failure? ==> raw.error == EncodeFailed
  {
    match codec.marshalResponse(res)
    case None => Failure(EncodeFailed)
    case Some(data) => Success(data)
  }

  /** The handler a dispatch method calls. */
  function Invoke(env: Env, t: Trigger, request: AttrMap): Outcome<Response>
  {
    match t
    case PreSignUpTrigger => Outcome(Cognito.PreSignUp(env.config, request), [])
    case PreAuthenticationTrigger => Outcome(Cognito.PreAuthentication(request), [])
    case PreTokenTrigger => Outcome(Cognito.PreToken(request), [])
    case PostConfirmationTrigger => Cognito.PostConfirmationSignUp(env.config, request, env.publish)
  }

  /** What a dispatch method does to an envelope: decode the request, run
      the handler, encode its response into the response slot. On failure
      there is no new envelope. */
  function Dispatch(env: Env, t: Trigger, e: Envelope): (o: Outcome<Envelope>)
    ensures o.result.Success? <==>
              && e.request.Some?
              && env.codec.unmarshalRequest(t, e.request.value).Some?
              && Invoke(env, t, env.codec.unmarshalRequest(t, e.request.value).value).result.Success?
              && env.codec.marshalResponse(
                   Invoke(env, t, env.codec.unmarshalRequest(t, e.request.value).value).result.value).Some?
    ensures o.result.Success? ==>
              var res := Invoke(env, t, env.codec.unmarshalRequest(t, e.request.value).value).result.value;
              o.result.value == e.(response := Some(env.codec.marshalResponse(res).value))
    ensures o.result.Failure? ==>
              o.result.error ==
                if e.request.None? then NilRequest
                else if env.codec.unmarshalRequest(t, e.request.value).None? then DecodeFailed
                else
                  var h := Invoke(env, t, env.codec.unmarshalRequest(t, e.request.value).value);
                  if h.result.Failure? then h.result.error else EncodeFailed
    ensures o.published ==
              if e.request.Some? && env.codec.unmarshalRequest(t, e.request.value).Some?
              then Invoke(env, t, env.codec.unmarshalRequest(t, e.request.value).value).published
              else []
  {
    if e.request.None? then Outcome(Failure(NilRequest), [])
    else
      match env.codec.unmarshalRequest(t, e.request.value)
      case None => Outcome(Failure(DecodeFailed), [])
      case Some(request) =>
        var h := Invoke(env, t, request);
        if h.result.Failure? then Outcome(Failure(h.result.error), h.published)
        else
          match RawResponse(env.codec, h.result.value)
          case Failure(err) => Outcome(Failure(err), h.published)
          case Success(raw) => Outcome(Success(e.(response := Some(raw))), h.published)
  }

  /** The final `json.Marshal` of the envelope: its bytes, or an encode
      error and no bytes. */
  function Marshal(codec: Codec, e: Envelope): (data: Result<RawMessage, Error>)
    ensures data.Success? <==> codec.marshalEnvelope(e).Some?
    ensures data.Success? ==> data.value == codec.marshalEnvelope(e).value
    ensures data.Failure? ==> data.error == EncodeFailed
  {
    match codec.marshalEnvelope(e)
    case None => Failure(EncodeFailed)
    case Some(data) => Success(data)
  }

  /** The envelope after dispatch method `t`, encoded. */
  function Routed(env: Env, t: Trigger, e: Envelope): Outcome<RawMessage>
  {
    var d := Dispatch(env, t, e);
    match d.result
    case Failure(err) => Outcome(Failure(err), d.published)
    case Success(e') => Outcome(Marshal(env.codec, e'), d.published)
  }

  /** What the whole handler returns for a payload. */
  function Handle(env: Env, payload: RawMessage): Outcome<RawMessage>
  {
    match env.codec.unmarshalEnvelope(payload)
    case None => Outcome(Failure(DecodeFailed), [])
    case Some(e) =>
      match Route(e.triggerSource)
      case None => Outcome(Marshal(env.codec, e), [])
      case Some(t) => Routed(env, t, e)
  }

  /** `before` becomes `after` as outcome `o` says, reporting `err`. */
  ghost predicate Dispatched(o: Outcome<Envelope>, before: Envelope, after: Envelope,
                             err: Option<Error>, published: seq<PublishInput>)
  {
    published == o.published &&
    match o.result
    case Success(e') => err == None && after == e'
    case Failure(x) => err == Some(x) && after == before
  }

  // ---------------------------------------------------------------------
  // The dispatch methods; each writes at most the envelope's response.

  method DispatchTo(env: Env, t: Trigger, evt: CognitoPoolEventEnvelope)
    returns (err: Option<Error>, published: seq<PublishInput>)
    modifies evt`response
    ensures Dispatched(Dispatch(env, t, old(evt.Value())), old(evt.Value()), evt.Value(), err, published)
  {
    if evt.request.None? {
      // Go dereferences the nil pointer here and panics.
      return Some(NilRequest), [];
    }
    var req := env.codec.unmarshalRequest(t, evt.request.value);
    if req.None? {
      return Some(DecodeFailed), [];
    }
    var res := Invoke(env, t, req.value);
    published := res.published;
    if res.result.Failure? {
      return Some(res.result.error), published;
    }
    var rawRes := RawResponse(env.codec, res.result.value);
    if rawRes.Failure? {
      return Some(rawRes.error), published;
    }
    evt.response := Some(rawRes.value);
    err := None;
  }

  method PreSignUp(env: Env, evt: CognitoPoolEventEnvelope) returns (err: Option<Error>, published: seq<PublishInput>)
    modifies evt`response
    ensures Dispatched(Dispatch(env, PreSignUpTrigger, old(evt.Value())), old(evt.Value()), evt.Value(), err, published)
  {
    err, published := DispatchTo(env, PreSignUpTrigger, evt);
  }

  method PreAuthentication(env: Env, evt: CognitoPoolEventEnvelope) returns (err: Option<Error>, published: seq<PublishInput>)
    modifies evt`response
    ensures Dispatched(Dispatch(env, PreAuthenticationTrigger, old(evt.Value())), old(evt.Value()), evt.Value(), err, published)
  {
    err, published := DispatchTo(env, PreAuthenticationTrigger, evt);
  }

  method PreToken(env: Env, evt: CognitoPoolEventEnvelope) returns (err: Option<Error>, published: seq<PublishInput>)
    modifies evt`response
    ensures Dispatched(Dispatch(env, PreTokenTrigger, old(evt.Value())), old(evt.Value()), evt.Value(), err, published)
  {
    err, published := DispatchTo(env, PreTokenTrigger, evt);
  }

  method PostConfirmationSignUp(env: Env, evt: CognitoPoolEventEnvelope) returns (err: Option<Error>, published: seq<PublishInput>)
    modifies evt`response
    ensures Dispatched(Dispatch(env, PostConfirmationTrigger, old(evt.Value())), old(evt.Value()), evt.Value(), err, published)
  {
    err, published := DispatchTo(env, PostConfirmationTrigger, evt);
  }

  /** The entry point: bytes in, bytes or an error out, plus the publish
      calls made on the way. */
  method Handler(env: Env, payload: RawMessage) returns (data: Result<RawMessage, Error>, published: seq<PublishInput>)
    ensures Outcome(data, published) == Handle(env, payload)
  {
    var decoded := env.codec.unmarshalEnvelope(payload);
    if decoded.None? {
      return Failure(DecodeFailed), [];
    }
    var evt := new CognitoPoolEventEnvelope(decoded.value);
    var err: Option<Error> := None;
    published := [];
    var route := Route(evt.triggerSource);
    if route == Some(PreSignUpTrigger) {
      err, published := PreSignUp(env, evt);
    } else if route == Some(PreAuthenticationTrigger) {
      err, published := PreAuthentication(env, evt);
    } else if route == Some(PostConfirmationTrigger) {
      err, published := PostConfirmationSignUp(env, evt);
    }
    if err.Some? {
      return Failure(err.value), published;
    }
    data := Marshal(env.codec, evt.Value());
  }

  // ---------------------------------------------------------------------
  // Properties of the dispatcher

  /** A payload that does not decode is an error, with no output and no
      handler run. */
  lemma HandleDecodeFailure(env: Env, payload: RawMessage)
    requires env.codec.unmarshalEnvelope(payload).None?
    ensures Handle(env, payload) == Outcome(Failure(DecodeFailed), [])
  {
  }

  /** The sources the package names but does not handle. */
  lemma UnhandledSources()
    ensures Route(PreSignUpAdminCreateUserSource).None?
    ensures Route(PostConfirmationConfirmForgotPasswordSource).None?
    ensures Route(PostAuthenticationSource).None?
  {
  }

  /** An unrouted source runs no handler, is not an error, and re-encodes the
      envelope exactly as decoded, any response already present included. */
  lemma HandlePassThrough(env: Env, payload: RawMessage, e: Envelope)
    requires env.codec.unmarshalEnvelope(payload) == Some(e)
    requires e.triggerSource !in RoutedSources
    ensures Handle(env, payload) == Outcome(Marshal(env.codec, e), [])
  {
  }

  /** Every token-generation source takes the pre-authentication path, and
      no source reaches the pre-token dispatch method. */
  lemma TokenGenerationSharesPreAuthentication(env: Env, payload: RawMessage, e: Envelope)
    requires env.codec.unmarshalEnvelope(payload) == Some(e)
    requires e.triggerSource in TokenGenerationSources
    ensures Handle(env, payload) == Routed(env, PreAuthenticationTrigger, e)
    ensures forall s :: Route(s) != Some(PreTokenTrigger)
  {
  }

  /** At most one handler runs: at most one publish, and only for the
      post-confirmation sign-up source. */
  lemma HandleAtMostOnePublish(env: Env, payload: RawMessage)
    ensures |Handle(env, payload).published| <= 1
    ensures Handle(env, payload).published != [] ==>
              && env.codec.unmarshalEnvelope(payload).Some?
              && env.codec.unmarshalEnvelope(payload).value.triggerSource == PostConfirmationConfirmSignUpSource
  {
  }

  /** A failing dispatch method makes the whole call fail with its error,
      and no bytes are produced. */
  lemma HandlePropagatesDispatchError(env: Env, payload: RawMessage, e: Envelope)
    requires env.codec.unmarshalEnvelope(payload) == Some(e)
    requires Route(e.triggerSource).Some?
    requires Dispatch(env, Route(e.triggerSource).value, e).result.Failure?
    ensures Handle(env, payload).result == Failure(Dispatch(env, Route(e.triggerSource).value, e).result.error)
  {
  }

  /** On success the output is the input envelope with only its response
      replaced, by the encoded response of the handler that ran. */
  lemma HandleWritesOnlyResponse(env: Env, payload: RawMessage, e: Envelope, request: AttrMap)
    requires env.codec.unmarshalEnvelope(payload) == Some(e)
    requires Route(e.triggerSource).Some?
    requires e.request.Some? && env.codec.unmarshalRequest(Route(e.triggerSource).value, e.request.value) == Some(request)
    requires Handle(env, payload).result.Success?
    ensures var h := Invoke(env, Route(e.triggerSource).value, request);
            && h.result.Success?
            && env.codec.marshalResponse(h.result.value).Some?
            && Handle(env, payload).result ==
                 Marshal(env.codec, e.(response := Some(env.codec.marshalResponse(h.result.value).value)))
  {
  }

  /** A pre-authentication event with a well-formed request yields output
      and no error, whatever response it carried in. */
  lemma PreAuthenticationEventAccepted(env: Env, payload: RawMessage, e: Envelope)
    requires env.codec.unmarshalEnvelope(payload) == Some(e)
    requires e.triggerSource == PreAuthenticationSource
    requires e.request.Some? && env.codec.unmarshalRequest(PreAuthenticationTrigger, e.request.value).Some?
    requires env.codec.marshalResponse(PreAuthenticationResponse).Some?
    requires env.codec.marshalEnvelope(e.(response := env.codec.marshalResponse(PreAuthenticationResponse))).Some?
    ensures Handle(env, payload).result.Success? && Handle(env, payload).published == []
  {
  }

  /** A pre-sign-up event whose request the gates reject fails with the
      gate's error, produces no bytes and publishes nothing. */
  lemma HandleReportsPreSignUpRejection(env: Env, payload: RawMessage, e: Envelope, request: AttrMap)
    requires env.codec.unmarshalEnvelope(payload) == Some(e)
    requires e.triggerSource == PreSignUpSource
    requires e.request.Some? && env.codec.unmarshalRequest(PreSignUpTrigger, e.request.value) == Some(request)
    requires Cognito.PreSignUp(env.config, request).Failure?
    ensures Handle(env, payload) == Outcome(Failure(Cognito.PreSignUp(env.config, request).error), [])
  {
  }

  /** A post-confirmation sign-up event whose request carries an email makes
      exactly the handler's one publish, whatever the outcome of the call. */
  lemma HandlePublishesSignUp(env: Env, payload: RawMessage, e: Envelope, request: AttrMap)
    requires env.codec.unmarshalEnvelope(payload) == Some(e)
    requires e.triggerSource == PostConfirmationConfirmSignUpSource
    requires e.request.Some? && env.codec.unmarshalRequest(PostConfirmationTrigger, e.request.value) == Some(request)
    requires "email" in request
    ensures Handle(env, payload).published ==
              [PublishInput(env.config.signUpSnsTopic, SignUpSubject, SignUpMessage(request["email"]))]
  {
  }

  /** When the envelope to be returned does not encode, the call is an
      encode error with no bytes, whether or not a handler ran. */
  lemma HandleEncodeFailure(env: Env, payload: RawMessage, e: Envelope)
    requires env.codec.unmarshalEnvelope(payload) == Some(e)
    requires Route(e.triggerSource).None? || Dispatch(env, Route(e.triggerSource).value, e).result.Success?
    requires var after := if Route(e.triggerSource).None? then e
                          else Dispatch(env, Route(e.triggerSource).value, e).result.value;
             env.codec.marshalEnvelope(after).None?
    ensures Handle(env, payload).result == Failure(EncodeFailed)
  {
  }
}
