/** The Cognito user-pool lifecycle triggers (pkg/triggers/cognito.go): the
    generic event envelope, the error values, and one handler per trigger.
    Each handler is a function of the decoded request, the configuration
    read from the process environment and, for post-confirmation, the
    outcome of the notification publish. */
module Cognito {
  import opened Wrappers
  import opened Strings

  newtype byte = x: int | 0 <= x < 256

  /** Encoded JSON, kept abstract: `json.RawMessage`. */
  type RawMessage = seq<byte>

  /** The `userAttributes` map of a trigger request. */
  type AttrMap = map<string, string>

  /** The errors a dispatch can end with. The first three are the package's
      error values; the others stand for errors the code passes through. */
  datatype Error =
    | InvalidDomain
    | InvalidSignUpCode
    | MissingEmail
    | PublishFailed(cause: string)  // the error returned by the SNS publish
    | DecodeFailed                  // json.Unmarshal of the envelope or of a request
    | EncodeFailed                  // json.Marshal of a response or of the envelope
    | NilRequest                    // `*evt.Request` on a nil pointer: a Go panic

  /** The environment variables the handlers read; an unset variable reads
      as the empty string, exactly as `os.Getenv` returns it. */
  datatype Config = Config(signUpInviteCode: string, whitelistDomain: string, signUpSnsTopic: string)

  datatype CallerContext = CallerContext(awsSdkVersion: string, clientId: string)

  /** The value of a `CognitoPoolEventEnvelope`; request and response are
      raw JSON, absent when the pointer is nil. */
  datatype Envelope = Envelope(
    version: string,
    triggerSource: string,
    region: string,
    userPoolId: string,
    callerContext: CallerContext,
    userName: string,
    request: Option<RawMessage>,
    response: Option<RawMessage>)

  /** The envelope object that the dispatcher decodes into and then updates
      in place. */
  class CognitoPoolEventEnvelope {
    var version: string
    var triggerSource: string
    var region: string
    var userPoolId: string
    var callerContext: CallerContext
    var userName: string
    var request: Option<RawMessage>
    var response: Option<RawMessage>

    /** The envelope filled in from a decoded value. */
    constructor (e: Envelope)
      ensures Value() == e
    {
      version := e.version;
      triggerSource := e.triggerSource;
      region := e.region;
      userPoolId := e.userPoolId;
      callerContext := e.callerContext;
      userName := e.userName;
      request := e.request;
      response := e.response;
    }

    function Value(): Envelope
      reads this
    {
      Envelope(version, triggerSource, region, userPoolId, callerContext, userName, request, response)
    }
  }

  /** The typed responses of the four handlers, at their Go zero values. */
  datatype Response =
    | PreSignUpResponse(autoConfirmUser: bool, autoVerifyEmail: bool, autoVerifyPhone: bool)
    | PreAuthenticationResponse
    | PreTokenGenResponse
    | PostConfirmationResponse

  /** One call of the SNS publish. */
  datatype PublishInput = PublishInput(topicArn: string, subject: string, message: string)

  datatype PublishResult = Published(messageId: string) | PublishError(cause: string)

  /** A handler result together with the publish calls it made, in order. */
  datatype Outcome<T> = Outcome(result: Result<T, Error>, published: seq<PublishInput>)

  const SignUpSubject := "new signup"

  function SignUpMessage(email: string): string
  {
    "signup of user " + email
  }

  // ---------------------------------------------------------------------
  // Reference definitions of what the pre-sign-up gates accept.

  /** The invite-code gate accepts: no code configured, or the request
      carries exactly the configured code. */
  predicate InviteAccepted(request: AttrMap, inviteCode: string)
  {
    inviteCode == "" || ("invite_code" in request && request["invite_code"] == inviteCode)
  }

  /** `email` is `local@domain` with exactly one `@` in it. */
  ghost predicate InDomain(email: string, domain: string)
  {
    '@' !in domain &&
    exists i :: 0 <= i < |email| && email[i] == '@' && '@' !in email[..i] && email[i + 1..] == domain
  }

  /** The whitelist gate accepts: no domain configured, or the request
      carries an email address in that domain. */
  ghost predicate DomainAccepted(request: AttrMap, whitelistDomain: string)
  {
    whitelistDomain == "" || ("email" in request && InDomain(request["email"], whitelistDomain))
  }

  // ---------------------------------------------------------------------
  // Handlers

  /** Pre-sign-up: the invite-code gate, then the email-domain gate, each
      short-circuiting on its first failure. */
  function PreSignUp(config: Config, request: AttrMap): (r: Result<Response, Error>)
    ensures r.Success? ==> r.value == PreSignUpResponse(false, false, false)
    ensures r.Failure? ==> r.error == InvalidSignUpCode || r.error == InvalidDomain
  {
    var inviteCode := config.signUpInviteCode;
    var whitelistDomain := config.whitelistDomain;
    if inviteCode != "" && "invite_code" !in request then Failure(InvalidSignUpCode)
    else if inviteCode != "" && inviteCode != request["invite_code"] then Failure(InvalidSignUpCode)
    else if whitelistDomain != "" && "email" !in request then Failure(InvalidDomain)
    else if whitelistDomain != "" && |Split(request["email"], '@')| != 2 then Failure(InvalidDomain)
    else if whitelistDomain != "" && Split(request["email"], '@')[1] != whitelistDomain then Failure(InvalidDomain)
    else Success(PreSignUpResponse(false, false, false))
  }

  /** Pre-authentication accepts every request. */
  function PreAuthentication(request: AttrMap): (r: Result<Response, Error>)
    ensures r.Success? && r.value == PreAuthenticationResponse
  {
    Success(PreAuthenticationResponse)
  }

  /** Pre-token-generation accepts every request and overrides nothing. */
  function PreToken(request: AttrMap): (r: Result<Response, Error>)
    ensures r.Success? && r.value == PreTokenGenResponse
  {
    Success(PreTokenGenResponse)
  }

  /** Post-confirmation: requires an email, then publishes one notification;
      `publish` is the outcome the SNS service would give for a call. */
  function PostConfirmationSignUp(config: Config, request: AttrMap, publish: PublishInput -> PublishResult): (o: Outcome<Response>)
    ensures o.published == [] <==> "email" !in request
    ensures o.result == Failure(MissingEmail) <==> "email" !in request
    ensures "email" in request ==>
              o.published == [PublishInput(config.signUpSnsTopic, SignUpSubject, SignUpMessage(request["email"]))]
    ensures o.published != [] ==>
              match publish(o.published[0])
              case Published(_) => o.result == Success(PostConfirmationResponse)
              case PublishError(cause) => o.result == Failure(PublishFailed(cause))
  {
    if "email" !in request then Outcome(Failure(MissingEmail), [])
    else
      var input := PublishInput(config.signUpSnsTopic, SignUpSubject, SignUpMessage(request["email"]));
      match publish(input)
      case PublishError(cause) => Outcome(Failure(PublishFailed(cause)), [input])
      case Published(_) => Outcome(Success(PostConfirmationResponse), [input])
  }

  // ---------------------------------------------------------------------
  // Properties of PreSignUp

  /** With an email, the domain gate's two `strings.Split` checks together
      say exactly that the email is in the whitelist domain. */
  lemma EmailDomainSplit(email: string, domain: string)
    ensures (|Split(email, '@')| == 2 && Split(email, '@')[1] == domain) <==> InDomain(email, domain)
  {
    var tokens := Split(email, '@');
    if |tokens| == 2 && tokens[1] == domain {
      SplitTokensOmitSeparator(email, '@');
      JoinSplit(email, '@');
      assert Join(tokens[1..], '@') == tokens[1];
      assert email == tokens[0] + ['@'] + tokens[1];
      var i := |tokens[0]|;
      assert email[i] == '@' && email[..i] == tokens[0] && email[i + 1..] == domain;
      assert '@' !in tokens[0] && '@' !in tokens[1];
    }
    if InDomain(email, domain) {
      var i :| 0 <= i < |email| && email[i] == '@' && '@' !in email[..i] && email[i + 1..] == domain;
      var parts := [email[..i], domain];
      assert email == email[..i] + ['@'] + email[i + 1..];
      assert Join(parts, '@') == email;
      SplitJoin(parts, '@');
    }
  }

  /** With an invite code configured, a missing or different `invite_code`
      is rejected with InvalidSignUpCode, and only then. */
  lemma PreSignUpInviteGate(config: Config, request: AttrMap)
    requires config.signUpInviteCode != ""
    ensures PreSignUp(config, request) == Failure(InvalidSignUpCode)
            <==> ("invite_code" !in request || request["invite_code"] != config.signUpInviteCode)
  {
  }

  /** The full decision: the invite gate is checked first, so an event that
      fails both gates gets InvalidSignUpCode; then the domain gate; an event
      that passes both gets the empty acknowledgment. */
  lemma PreSignUpDecision(config: Config, request: AttrMap)
    ensures PreSignUp(config, request) ==
            if !InviteAccepted(request, config.signUpInviteCode) then Failure(InvalidSignUpCode)
            else if !DomainAccepted(request, config.whitelistDomain) then Failure(InvalidDomain)
            else Success(PreSignUpResponse(false, false, false))
  {
    if config.whitelistDomain != "" && "email" in request {
      EmailDomainSplit(request["email"], config.whitelistDomain);
    }
  }

  /** With a whitelist domain configured, an email with no `@` or with more
      than one is rejected with InvalidDomain, whatever its domain. */
  lemma PreSignUpMalformedEmail(config: Config, request: AttrMap)
    requires InviteAccepted(request, config.signUpInviteCode)
    requires config.whitelistDomain != "" && "email" in request
    requires Count(request["email"], '@') != 1
    ensures PreSignUp(config, request) == Failure(InvalidDomain)
  {
    SplitLength(request["email"], '@');
  }

  /** With neither gate configured, every request is accepted. */
  lemma PreSignUpUnconfigured(config: Config, request: AttrMap)
    requires config.signUpInviteCode == "" && config.whitelistDomain == ""
    ensures PreSignUp(config, request) == Success(PreSignUpResponse(false, false, false))
  {
  }

  /** Worked cases of the invite-code gate. */
  lemma InviteGateExamples(topic: string)
    ensures PreSignUp(Config("ABC", "", topic), map[]) == Failure(InvalidSignUpCode)
    ensures PreSignUp(Config("ABC", "", topic), map["invite_code" := "XYZ"]) == Failure(InvalidSignUpCode)
    ensures PreSignUp(Config("ABC", "", topic), map["invite_code" := "ABC"]).Success?
  {
  }

  /** Worked cases of the email-domain gate: the wrong domain. */
  lemma DomainGateRejectsOtherDomain(topic: string)
    ensures PreSignUp(Config("", "example.com", topic), map["email" := "a@evil.com"]) == Failure(InvalidDomain)
  {
    SplitJoin(["a", "evil.com"], '@');
  }

  /** Worked cases of the email-domain gate: the whitelisted domain. */
  lemma DomainGateAcceptsWhitelisted(topic: string)
    ensures PreSignUp(Config("", "example.com", topic), map["email" := "a@example.com"]).Success?
  {
    SplitJoin(["a", "example.com"], '@');
  }

  /** Worked cases of the email-domain gate: two `@`, with and without a
      whitelist configured. */
  lemma DomainGateTwoAts(topic: string)
    ensures PreSignUp(Config("", "example.com", topic), map["email" := "a@b@c"]) == Failure(InvalidDomain)
    ensures PreSignUp(Config("", "", topic), map["email" := "a@b@c"]).Success?
  {
    SplitJoin(["a", "b", "c"], '@');
  }
}
