/**
 * `SignupUserUseCase.execute`: the signup pipeline
 *   findByEmail -> generateHash -> create user -> insert -> sign token
 *   -> build link -> compile template -> send mail.
 *
 * Two versions of the use case exist and they disagree on one point: the
 * current one rejects an email already in use with `EmailInUseError`, the
 * legacy one with NestJS's `BadRequestException`. Both are modelled, selected
 * by `Variant`.
 *
 * Hashing, token signing and template compilation are foreign code, so they
 * are parameters (`Providers`) and every property below holds for all of them.
 * The ghost `calls` log records each collaborator call with its arguments, in
 * order, as the unit tests' spies observe them.
 */
module SignupUser {
  import opened Wrappers
  import opened ApplicationErrors

  /** The request payload. */
  datatype SignupInput = SignupInput(email: string, name: string, password: string)

  /** The argument of `UserEntityFactory.create`. */
  datatype UserProps = UserProps(email: string, name: string, password: string)

  /** A stored user; `password` holds the hash, never the raw password. */
  datatype UserEntity = UserEntity(email: string, name: string, password: string, emailVerified: bool)

  /** The members of `TOKEN_TYPE` this pipeline uses. */
  datatype TokenType = EMAIL_VERIFY

  datatype TokenPayload = TokenPayload(email: string, tokenType: TokenType)

  /** The argument of the JWT provider's `sign`. */
  datatype SignOptions = SignOptions(expiresIn: string, payload: TokenPayload)

  datatype Recipient = Recipient(email: string, name: string)

  /** The argument of the mail service's `sendMail`. */
  datatype Message = Message(to: Recipient, subject: string, body: string)

  /**
   * The foreign collaborators: the hash provider's `generateHash`, the JWT
   * provider's `sign`, the template engine's `compile`, and the configured
   * public server URL.
   */
  datatype Providers = Providers(
    generateHash: string -> string,
    sign: SignOptions -> string,
    compile: (string, map<string, string>) -> string,
    serverUrl: string)

  /**
   * Which version of the use case runs. `Current` builds the user itself and
   * reads the server URL from its configuration provider; `Legacy` asks a
   * `UserEntityFactory` for the user and is given the server URL directly.
   */
  datatype Variant = Current | Legacy

  /** What `execute` rejects with. */
  datatype SignupError =
    | AppError(error: ApplicationError)  // one of the application's own error kinds
    | BadRequestException                // NestJS's built-in exception, status 400

  /** A collaborator call, with its arguments. */
  datatype Call =
    | FindByEmailCall(email: string)
    | GenerateHashCall(password: string)
    | CreateUserCall(props: UserProps)
    | InsertCall(user: UserEntity)
    | SignCall(options: SignOptions)
    | CompileCall(fileName: string, variables: map<string, string>)
    | SendMailCall(message: Message)

  const VerificationTemplate: string := "email-verification.hbs"
  const VerificationSubject: string := "Verifica\U{E7}\U{E3}o de Email"
  const VerifyPath: string := "/users/verify?token="
  const VerificationExpiry: string := "2h"

  /** The error each variant rejects a duplicate email with. */
  function DuplicateEmailError(v: Variant): (e: SignupError)
    ensures v == Current <==> e == AppError(EmailInUseError)
    ensures v == Legacy <==> e == BadRequestException
  {
    match v
    case Current => AppError(EmailInUseError)
    case Legacy => BadRequestException
  }

  /** The HTTP status a rejection surfaces with. */
  function ErrorStatus(e: SignupError): (s: nat)
    ensures s in {400, 401, 403, 404}
  {
    match e
    case AppError(k) => HttpStatus(k)
    case BadRequestException => 400
  }

  /** Both variants reject a duplicate email with status 400, though with different errors. */
  lemma DuplicateEmailStatus(v: Variant)
    ensures ErrorStatus(DuplicateEmailError(v)) == 400
    ensures DuplicateEmailError(Current) != DuplicateEmailError(Legacy)
  {
  }

  /** The user a signup stores: the given properties, not yet verified. */
  function CreateUser(p: UserProps): UserEntity
  {
    UserEntity(p.email, p.name, p.password, false)
  }

  /** The token a verification link carries, if `link` is one for `serverUrl`. */
  function TokenFromLink(serverUrl: string, link: string): (r: Option<string>)
    ensures r.Some? ==> link == serverUrl + VerifyPath + r.value
  {
    var prefix := serverUrl + VerifyPath;
    if |prefix| <= |link| && link[..|prefix|] == prefix then
      assert link == link[..|prefix|] + link[|prefix|..];
      Some(link[|prefix|..])
    else None
  }

  /** The verification link: the server URL, the verify route, then the token. */
  function VerificationLink(serverUrl: string, token: string): (link: string)
    ensures TokenFromLink(serverUrl, link) == Some(token)
  {
    var link := serverUrl + VerifyPath + token;
    assert link[..|serverUrl + VerifyPath|] == serverUrl + VerifyPath;
    assert link[|serverUrl + VerifyPath|..] == token;
    link
  }

  /** Distinct tokens give distinct links. */
  lemma VerificationLinkInjective(serverUrl: string, t1: string, t2: string)
    requires VerificationLink(serverUrl, t1) == VerificationLink(serverUrl, t2)
    ensures t1 == t2
  {
  }

  /** A run of the pipeline: what it returns, the store and outbox after it, and the calls it made. */
  datatype SignupRun = SignupRun(
    outcome: Outcome<SignupError>,
    users: map<string, UserEntity>,
    outbox: seq<Message>,
    calls: seq<Call>)

  /** The verification mail for `p` whose body is `html`. */
  function VerificationMessage(p: SignupInput, html: string): Message
  {
    Message(Recipient(p.email, p.name), VerificationSubject, html)
  }

  /** The specification of one `execute` call against a store `users` and a mail `outbox`. */
  function Signup(users: map<string, UserEntity>, outbox: seq<Message>, p: SignupInput, pr: Providers, v: Variant): (r: SignupRun)
    ensures r.outcome.Fail? <==> p.email in users
    ensures |r.calls| > 0 && r.calls[0] == FindByEmailCall(p.email)
    ensures r.outcome.Fail? ==>
              && r.outcome.error == DuplicateEmailError(v)
              && r.users == users && r.outbox == outbox && r.calls == [FindByEmailCall(p.email)]
    ensures r.outcome.Pass? ==>
              && r.users.Keys == users.Keys + {p.email}
              && (forall e :: e in users ==> r.users[e] == users[e])
              && r.users[p.email] == UserEntity(p.email, p.name, pr.generateHash(p.password), false)
              && |r.outbox| == |outbox| + 1 && r.outbox[..|outbox|] == outbox
              && r.outbox[|outbox|].to == Recipient(p.email, p.name)
              && r.outbox[|outbox|].subject == VerificationSubject
  {
    if p.email in users then
      SignupRun(Fail(DuplicateEmailError(v)), users, outbox, [FindByEmailCall(p.email)])
    else
      var hashedPassword := pr.generateHash(p.password);
      var props := UserProps(p.email, p.name, hashedPassword);
      var user := CreateUser(props);
      var options := SignOptions(VerificationExpiry, TokenPayload(p.email, EMAIL_VERIFY));
      var token := pr.sign(options);
      var variables := map["link" := VerificationLink(pr.serverUrl, token)];
      var html := pr.compile(VerificationTemplate, variables);
      var message := VerificationMessage(p, html);
      SignupRun(
        Pass,
        users[p.email := user],
        outbox + [message],
        [FindByEmailCall(p.email), GenerateHashCall(p.password)]
        + (if v == Legacy then [CreateUserCall(props)] else [])
        + [InsertCall(user), SignCall(options), CompileCall(VerificationTemplate, variables), SendMailCall(message)])
  }

  /**
   * The collaborators of a successful run see exactly the arguments the legacy
   * unit test expects: the factory (legacy only; the current use case has none)
   * gets the hash, not the raw password; insert gets the user holding that
   * hash; sign gets a two-hour email-verification payload; the template gets
   * the link carrying the signed token; the mail carries the compiled HTML.
   * `f` is the one extra call the legacy factory makes.
   */
  lemma SignupCallArguments(users: map<string, UserEntity>, outbox: seq<Message>, p: SignupInput, pr: Providers, v: Variant)
    requires p.email !in users
    ensures var r := Signup(users, outbox, p, pr, v);
            var f := if v == Legacy then 1 else 0;
            && |r.calls| == 6 + f
            && r.calls[1] == GenerateHashCall(p.password)
            && (v == Legacy ==> r.calls[2] == CreateUserCall(UserProps(p.email, p.name, pr.generateHash(p.password))))
            && (forall k :: 0 <= k < |r.calls| && r.calls[k].CreateUserCall? ==> v == Legacy)
            && r.calls[2 + f] == InsertCall(UserEntity(p.email, p.name, pr.generateHash(p.password), false))
            && r.calls[3 + f] == SignCall(SignOptions("2h", TokenPayload(p.email, EMAIL_VERIFY)))
            && r.calls[4 + f].CompileCall? && r.calls[4 + f].fileName == "email-verification.hbs"
            && r.calls[4 + f].variables.Keys == {"link"}
            && TokenFromLink(pr.serverUrl, r.calls[4 + f].variables["link"]) == Some(pr.sign(r.calls[3 + f].options))
            && r.calls[5 + f] == SendMailCall(Message(Recipient(p.email, p.name), VerificationSubject,
                                                      pr.compile(r.calls[4 + f].fileName, r.calls[4 + f].variables)))
            && r.outbox == outbox + [r.calls[5 + f].message]
  {
  }

  /**
   * Signing up twice with one email: the second call is rejected with the
   * variant's duplicate error, and the store still holds exactly the user the
   * first call created for that email.
   */
  lemma SignupTwiceRejected(users: map<string, UserEntity>, outbox: seq<Message>, p1: SignupInput, p2: SignupInput, pr: Providers, v: Variant)
    requires p1.email !in users && p2.email == p1.email
    ensures var first := Signup(users, outbox, p1, pr, v);
            var second := Signup(first.users, first.outbox, p2, pr, v);
            && first.outcome == Pass
            && second.outcome == Fail(DuplicateEmailError(v))
            && second.users == first.users && second.outbox == first.outbox
            && second.users[p1.email].password == pr.generateHash(p1.password)
  {
  }

  /** With the template engine's test double, which compiles every template to "html", that is the mail body. */
  lemma SignupWithTemplateMock(users: map<string, UserEntity>, outbox: seq<Message>, p: SignupInput, pr: Providers, v: Variant)
    requires p.email !in users
    requires forall f, vars :: pr.compile(f, vars) == "html"
    ensures Signup(users, outbox, p, pr, v).outbox == outbox + [Message(Recipient(p.email, p.name), VerificationSubject, "html")]
  {
  }

  /**
   * The spy shared by all collaborators: each collaborator method appends its
   * own call, with its arguments, when it runs.
   */
  class CallLog {
    ghost var calls: seq<Call>

    constructor ()
      ensures calls == []
    {
      calls := [];
    }
  }

  /** The users collection. */
  class UsersRepository {
    var users: map<string, UserEntity>
    const log: CallLog

    constructor (initial: map<string, UserEntity>, log: CallLog)
      ensures users == initial && this.log == log
    {
      users := initial;
      this.log := log;
    }

    /** `findByEmail`: the user registered under `email`, if any; the store is not changed. */
    method FindByEmail(email: string) returns (r: Option<UserEntity>)
      modifies log
      ensures r.Some? <==> email in users
      ensures r.Some? ==> r.value == users[email]
      ensures log.calls == old(log.calls) + [FindByEmailCall(email)]
    {
      log.calls := log.calls + [FindByEmailCall(email)];
      r := if email in users then Some(users[email]) else None;
    }

    /** `insert`: stores `user` under its email. */
    method Insert(user: UserEntity)
      modifies this, log
      ensures users == old(users)[user.email := user]
      ensures log.calls == old(log.calls) + [InsertCall(user)]
    {
      log.calls := log.calls + [InsertCall(user)];
      users := users[user.email := user];
    }
  }

  /** `UserEntityFactory`. */
  class UserEntityFactory {
    const log: CallLog

    constructor (log: CallLog)
      ensures this.log == log
    {
      this.log := log;
    }

    /** `create`: a new, unverified user carrying exactly the given properties. */
    method Create(props: UserProps) returns (user: UserEntity)
      modifies log
      ensures user == UserEntity(props.email, props.name, props.password, false)
      ensures log.calls == old(log.calls) + [CreateUserCall(props)]
    {
      log.calls := log.calls + [CreateUserCall(props)];
      user := CreateUser(props);
    }
  }

  /** The hash provider; `hash` is the foreign hashing function. */
  class HashProvider {
    const hash: string -> string
    const log: CallLog

    constructor (hash: string -> string, log: CallLog)
      ensures this.hash == hash && this.log == log
    {
      this.hash := hash;
      this.log := log;
    }

    /** `generateHash`. */
    method GenerateHash(password: string) returns (hashed: string)
      modifies log
      ensures hashed == hash(password)
      ensures log.calls == old(log.calls) + [GenerateHashCall(password)]
    {
      log.calls := log.calls + [GenerateHashCall(password)];
      hashed := hash(password);
    }
  }

  /** The JWT provider; `signer` is the foreign signing function. */
  class JwtProvider {
    const signer: SignOptions -> string
    const log: CallLog

    constructor (signer: SignOptions -> string, log: CallLog)
      ensures this.signer == signer && this.log == log
    {
      this.signer := signer;
      this.log := log;
    }

    /** `sign`. */
    method Sign(options: SignOptions) returns (token: string)
      modifies log
      ensures token == signer(options)
      ensures log.calls == old(log.calls) + [SignCall(options)]
    {
      log.calls := log.calls + [SignCall(options)];
      token := signer(options);
    }
  }

  /** The template engine; `render` is the foreign template compiler. */
  class TemplateEngineProvider {
    const render: (string, map<string, string>) -> string
    const log: CallLog

    constructor (render: (string, map<string, string>) -> string, log: CallLog)
      ensures this.render == render && this.log == log
    {
      this.render := render;
      this.log := log;
    }

    /** `compile`. */
    method Compile(fileName: string, variables: map<string, string>) returns (html: string)
      modifies log
      ensures html == render(fileName, variables)
      ensures log.calls == old(log.calls) + [CompileCall(fileName, variables)]
    {
      log.calls := log.calls + [CompileCall(fileName, variables)];
      html := render(fileName, variables);
    }
  }

  /** The mail service; every message it accepts is appended to `sent`. */
  class MailService {
    var sent: seq<Message>
    const log: CallLog

    constructor (log: CallLog)
      ensures sent == [] && this.log == log
    {
      sent := [];
      this.log := log;
    }

    /** `sendMail`: always succeeds. */
    method SendMail(message: Message)
      modifies this, log
      ensures sent == old(sent) + [message]
      ensures log.calls == old(log.calls) + [SendMailCall(message)]
    {
      log.calls := log.calls + [SendMailCall(message)];
      sent := sent + [message];
    }
  }

  class SignupUserUseCase {
    const repository: UsersRepository
    /** The legacy use case's factory; the current one has none. */
    const factory: UserEntityFactory?
    const hashProvider: HashProvider
    const templateProvider: TemplateEngineProvider
    const jwtProvider: JwtProvider
    const mailService: MailService
    const serverUrl: string
    const variant: Variant
    /** The spy every collaborator records into. */
    const log: CallLog

    /** Only the legacy use case has a factory, and every collaborator records into the use case's log. */
    ghost predicate Valid()
    {
      && (factory != null <==> variant == Legacy) && (factory != null ==> factory.log == log)
      && repository.log == log && hashProvider.log == log
      && templateProvider.log == log && jwtProvider.log == log && mailService.log == log
    }

    /** The foreign functions behind the collaborators, with the configured server URL. */
    function Collaborators(): Providers
    {
      Providers(hashProvider.hash, jwtProvider.signer, templateProvider.render, serverUrl)
    }

    constructor (repository: UsersRepository, factory: UserEntityFactory?, hashProvider: HashProvider,
                 templateProvider: TemplateEngineProvider, jwtProvider: JwtProvider, mailService: MailService,
                 serverUrl: string, variant: Variant, log: CallLog)
      requires (factory != null <==> variant == Legacy) && (factory != null ==> factory.log == log)
      requires repository.log == log && hashProvider.log == log
      requires templateProvider.log == log && jwtProvider.log == log && mailService.log == log
      ensures Valid()
      ensures this.repository == repository && this.factory == factory && this.hashProvider == hashProvider
      ensures this.templateProvider == templateProvider && this.jwtProvider == jwtProvider
      ensures this.mailService == mailService && this.serverUrl == serverUrl
      ensures this.variant == variant && this.log == log
    {
      this.repository := repository;
      this.factory := factory;
      this.hashProvider := hashProvider;
      this.templateProvider := templateProvider;
      this.jwtProvider := jwtProvider;
      this.mailService := mailService;
      this.serverUrl := serverUrl;
      this.variant := variant;
      this.log := log;
    }

    /**
     * `execute`: runs the pipeline, stopping at the first step that fails. The
     * calls the collaborators record, in order and with their arguments, are
     * exactly those of `Signup`.
     */
    method Execute(payload: SignupInput) returns (r: Outcome<SignupError>)
      requires Valid()
      modifies repository, mailService, log
      ensures var run := Signup(old(repository.users), old(mailService.sent), payload, Collaborators(), variant);
              && r == run.outcome
              && repository.users == run.users
              && mailService.sent == run.outbox
              && log.calls == old(log.calls) + run.calls
    {
      var existentUser := repository.FindByEmail(payload.email);
      if existentUser.Some? {
        return Fail(DuplicateEmailError(variant));
      }
      var hashedPassword := hashProvider.GenerateHash(payload.password);
      var props := UserProps(payload.email, payload.name, hashedPassword);
      var user;
      if factory != null {
        user := factory.Create(props);
      } else {
        user := CreateUser(props);
      }
      repository.Insert(user);
      var token := jwtProvider.Sign(SignOptions(VerificationExpiry, TokenPayload(payload.email, EMAIL_VERIFY)));
      var link := VerificationLink(serverUrl, token);
      var html := templateProvider.Compile(VerificationTemplate, map["link" := link]);
      mailService.SendMail(VerificationMessage(payload, html));
      r := Pass;
    }
  }
}
