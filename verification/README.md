# Unified news portal: a verified model of its core rules

This project models, in Dafny, the parts of the unified-news-portal NestJS backend
that carry rules you can state and prove:

- **Error taxonomy**: the `APPLICATION_ERROR` enum and the nine concrete
  `ApplicationError` classes. Each class fixes a message, an HTTP status and an
  enum code (`application_errors.dfy`).
- **Category mapper**: `CategoryMongoEntityMapper` renames `id` to the
  document's `_id` and back (`categories.dfy`).
- **Category deletion**: `DeleteCategoriesUseCase.execute` looks the id up,
  fails with `NotFoundError` when it is absent, and otherwise deletes it
  (`delete_categories.dfy`). The repository is a class holding a map and a
  ghost log of the calls made on it.
- **Class name validation**: `CreateClassesDto.name` is trimmed with
  `value?.trim()`, then checked with `@IsString()` and `@Length(2, 55)`
  (`create_classes_dto.dfy`).
- **Post-type presenter**: `PostTypesPresenter.format` projects a record onto
  `id`, `name` and `created_at` (`post_types_presenter.dfy`).
- **Signup pipeline**: `SignupUserUseCase.execute` runs findByEmail, hash,
  create the user, insert, sign token, build link, compile template, send mail
  (`signup_user.dfy`). Its implementation is not part of this model. The model
  follows what its two unit-test suites check: the arguments of each call and
  the error on a duplicate email. Two further facts come from modelling signup
  as a linear, fail-fast pipeline, not from the tests:
  - `insert` comes before `sign`, `compile` and `sendMail`;
  - a duplicate email makes no call after `findByEmail`.

  The two versions differ in two ways:
  - On a duplicate email, the current one throws `EmailInUseError` and the
    legacy one throws NestJS's `BadRequestException`.
  - Only the legacy one is given a `UserEntityFactory` to create the user.

  The model takes the version as a `Variant` parameter and does not pick one.

The hash provider, JWT provider and template engine are foreign code. Each is
a class holding an arbitrary function, so every property holds for any
implementation of them. The mail service is a class whose `sent` sequence
records every message. Every collaborator appends its own call, with its
arguments, to one shared ghost log, as the unit tests' spies observe them.

Three constants fixed by the source:

- `InvalidTokenTypeError` has HTTP status 400 (application-errors.ts line 25).
- The verification mail's subject is `Verificação de Email` (the legacy signup test, line 96).
- The verification template is `email-verification.hbs` (the same test, line 91).

## Model

| member | source | states |
|---|---|---|
| ApplicationErrors.HttpStatus | src/common/application/errors/application-errors.ts:22-92 | every kind's status is one of 400, 401, 403, 404; 404 exactly for NotFound, 403 exactly for Forbidden, 400 exactly for InvalidTokenType, EmailInUse and BadRequest, 401 for the other four |
| ApplicationErrors.Message | src/common/application/errors/application-errors.ts:22-92 | every kind has a non-empty fixed message, e.g. "Email already in use", "Invalid email or password" |
| ApplicationErrors.MessageInjective | src/common/application/errors/application-errors.ts:22-92 | two kinds share a message only if they are the same kind |
| ApplicationErrors.Code | src/common/application/errors/application-errors.ts:22-92 | the code a class assigns maps back to that class |
| ApplicationErrors.CodeInjective | src/common/application/errors/application-errors.ts:22-92 | distinct kinds carry distinct codes (both directions) |
| ApplicationErrors.CodeBijection | src/common/application/errors/application-errors.ts:1-92 | enum members and concrete classes are in bijection: Code and KindOf are mutually inverse |
| ApplicationErrors.CodeName | src/common/application/errors/application-errors.ts:1-11 | each enum member's string initialiser is a non-empty upper-case identifier |
| ApplicationErrors.ParseCode | src/common/application/errors/application-errors.ts:1-11 | a parsed enum string is exactly the string value of the member returned |
| ApplicationErrors.CodeNameRoundTrip | src/common/application/errors/application-errors.ts:1-11 | each member's string value parses back to it, and a string parses to a member iff it is that member's value |
| Categories.ToDatabaseEntity | src/modules/categories/infrastructure/database/models/mongo/categories-mongo-model.mapper.ts:20-26 | `_id` is the entity's `id`; name and created_at are copied |
| Categories.ToDomainEntity | src/modules/categories/infrastructure/database/models/mongo/categories-mongo-model.mapper.ts:12-18 | `id` is the document's `_id`; name and created_at are copied; converting back yields the document |
| Categories.DomainRoundTrip | src/modules/categories/infrastructure/database/models/mongo/categories-mongo-model.mapper.ts:12-26 | toDomainEntity(toDatabaseEntity(e)) == e |
| Categories.DatabaseRoundTrip | src/modules/categories/infrastructure/database/models/mongo/categories-mongo-model.mapper.ts:12-26 | toDatabaseEntity(toDomainEntity(m)) == m |
| Categories.MappersInjective | src/modules/categories/infrastructure/database/models/mongo/categories-mongo-model.mapper.ts:12-26 | neither conversion maps two different inputs to one output |
| DeleteCategories.DeleteCategory | src/modules/categories/application/usecases/delete-categories.usecase.ts:17-27 | fails iff the id is absent, then with NotFoundError and the store unchanged; on success exactly that key is gone (size drops by one) and every other entry keeps its value |
| DeleteCategories.DeleteTwiceFails | src/modules/categories/application/usecases/delete-categories.usecase.ts:18-26 | deleting the same id again fails with NotFound and changes nothing |
| DeleteCategories.DeleteKeepsOthers | src/modules/categories/application/usecases/delete-categories.usecase.ts:26 | any other key survives a deletion with its value |
| DeleteCategories.CategoriesRepository.FindById | src/modules/categories/application/usecases/delete-categories.usecase.ts:18-20 | returns the stored category iff the id is present, leaves the store unchanged, logs the lookup |
| DeleteCategories.CategoriesRepository.Delete | src/modules/categories/application/usecases/delete-categories.usecase.ts:26 | removes exactly that key and logs the call |
| DeleteCategories.DeleteCategoriesUseCase.Execute | src/modules/categories/application/usecases/delete-categories.usecase.ts:17-27 | result and new store are DeleteCategory's; the repository sees the lookup first, then a delete with exactly categoryId only when the lookup succeeded |
| ClassesDto.IsWhitespace | src/modules/classes/dtos/create-classes.dto.ts:7 | the characters `trim` strips: all ECMAScript WhiteSpace and LineTerminator code points; space, tab, LF and CR are among them, and no visible ASCII character is |
| ClassesDto.TrimStart | src/modules/classes/dtos/create-classes.dto.ts:7 | result is a suffix of the input, everything dropped is whitespace, and it does not start with whitespace |
| ClassesDto.TrimEnd | src/modules/classes/dtos/create-classes.dto.ts:7 | result is a prefix of the input, everything dropped is whitespace, and it does not end with whitespace |
| ClassesDto.Trim | src/modules/classes/dtos/create-classes.dto.ts:7 | result is an infix of the input with no whitespace at either end; everything cut off on both sides is whitespace, so the interior is preserved |
| ClassesDto.TrimFixpoint | src/modules/classes/dtos/create-classes.dto.ts:7 | trim leaves a string unchanged iff it has no whitespace at either end |
| ClassesDto.TrimIdempotent | src/modules/classes/dtos/create-classes.dto.ts:7 | trim(trim(s)) == trim(s) |
| ClassesDto.TransformName | src/modules/classes/dtos/create-classes.dto.ts:7 | undefined and null pass through the optional chain as undefined, a string is trimmed, any other value throws |
| ClassesDto.ValidateTransformed | src/modules/classes/dtos/create-classes.dto.ts:5-6 | accepts iff the value is a string of length 2 to 55, returning it; otherwise names the failing check |
| ClassesDto.ValidateName | src/modules/classes/dtos/create-classes.dto.ts:4-8 | accepts iff the input is a string whose trimmed length is 2 to 55, yielding the trimmed string (no outer whitespace); missing values are rejected as not a string; numbers, booleans, dates, arrays and objects make the transform throw |
| ClassesDto.RevalidateAccepted | src/modules/classes/dtos/create-classes.dto.ts:5-7 | an accepted name submitted again is accepted unchanged |
| PostTypesPresenter.Format | src/modules/post-types/presenters/__test__/unit/post-types-presenter.spec.ts:15-21 | output has exactly the keys id, name, created_at, each with the input's value |
| PostTypesPresenter.FormatIdempotent | src/modules/post-types/presenters/__test__/unit/post-types-presenter.spec.ts:15-21 | format(format(x)) == format(x) |
| PostTypesPresenter.FormatIgnoresExtras | src/modules/post-types/presenters/__test__/unit/post-types-presenter.spec.ts:7-21 | records agreeing on the three keys format identically, whatever else they hold |
| PostTypesPresenter.FormatDropsExtraInfo | src/modules/post-types/presenters/__test__/unit/post-types-presenter.spec.ts:6-22 | the test's five-key subject formats to the strict three-key object |
| SignupUser.DuplicateEmailError | src/modules/users/usecases/__test__/unit/signup-user-usecase.spec.ts:104-111 | the current variant rejects with EmailInUseError, the legacy one with BadRequestException |
| SignupUser.DuplicateEmailStatus | src/modules/users/application/usecases/__test__/unit/signup-user-usecase.spec.ts:79-89 | both variants reject a duplicate with status 400, though with different errors |
| SignupUser.TokenFromLink | src/modules/users/usecases/__test__/unit/signup-user-usecase.spec.ts:83-84 | a token extracted from a link is what follows serverUrl + "/users/verify?token=" |
| SignupUser.VerificationLink | src/modules/users/usecases/__test__/unit/signup-user-usecase.spec.ts:83-84 | the link built from a token parses back to exactly that token |
| SignupUser.VerificationLinkInjective | src/modules/users/usecases/__test__/unit/signup-user-usecase.spec.ts:83-84 | distinct tokens give distinct links |
| SignupUser.Signup | src/modules/users/usecases/__test__/unit/signup-user-usecase.spec.ts:55-111 | fails iff the email is registered, then with the variant's error, no change and only the lookup made; otherwise adds exactly one user under that email with the hashed password, unverified, keeps every other user, and appends one mail to the payload's email and name |
| SignupUser.SignupCallArguments | src/modules/users/usecases/__test__/unit/signup-user-usecase.spec.ts:55-102 | a successful run makes its calls in order with the tested arguments: hash of the password; for the legacy variant only, the factory with the hash; insert of the user holding the hash; sign with 2h and EMAIL_VERIFY; compile of email-verification.hbs with only {link} carrying the token; sendMail of the compiled html |
| SignupUser.SignupTwiceRejected | src/modules/users/application/usecases/__test__/unit/signup-user-usecase.spec.ts:79-89 | a second signup with the same email fails with the duplicate error and leaves store and outbox as the first left them |
| SignupUser.SignupWithTemplateMock | src/modules/users/infrastructure/providers/template-engine/__MOCKS__/template-engine-provider.mock.ts:6-11 | with the template test double the mail body is "html" |
| SignupUser.UsersRepository.FindByEmail | src/modules/users/application/usecases/__test__/unit/signup-user-usecase.spec.ts:62 | returns the user registered under the email iff there is one, and logs the lookup |
| SignupUser.UsersRepository.Insert | src/modules/users/application/usecases/__test__/unit/signup-user-usecase.spec.ts:64 | stores the user under its email, and logs the insert |
| SignupUser.UserEntityFactory.Create | src/modules/users/usecases/__test__/unit/signup-user-usecase.spec.ts:68-73 | returns an unverified user with exactly the given email, name and password, and logs the call |
| SignupUser.HashProvider.GenerateHash | src/modules/users/usecases/__test__/unit/signup-user-usecase.spec.ts:63-67 | returns the hash function's value for the password, and logs the call |
| SignupUser.JwtProvider.Sign | src/modules/users/usecases/__test__/unit/signup-user-usecase.spec.ts:83-90 | returns the signer's token for the options, and logs the call |
| SignupUser.TemplateEngineProvider.Compile | src/modules/users/usecases/__test__/unit/signup-user-usecase.spec.ts:85-93 | returns the compiler's html for the file and variables, and logs the call |
| SignupUser.MailService.SendMail | src/modules/users/infrastructure/services/mail/__MOCKS__/mail-service.mock.ts:8-11 | always succeeds, records the message, and logs the call |
| SignupUser.SignupUserUseCase.Execute | src/modules/users/application/usecases/__test__/unit/signup-user-usecase.spec.ts:52-89 | result, store and outbox are those of Signup; the calls the collaborators themselves log are exactly Signup's, in order and with its arguments, so a duplicate email stops after the lookup |

## Left out

- The verification pipeline, token verification, password-hash verification and every other authentication flow: their source is not part of this model, so no token or hash round trip is claimed.
- Hashing, JWT signing and template compilation are arbitrary functions (`Providers`). Whether the hash differs from the raw password is their property and is not modelled. As Dafny functions they are deterministic: the model fixes one output per input, while a salted hash and a token carrying its issue time differ from call to call.
- `UserEntityFactory` is not part of this model. `CreateUser` assumes it copies email, name and password into an unverified user.
- SignupUser.Signup: a rejected insert, signing, compile or mail step is not modelled. Mail delivery always succeeds, as in the mail-service test double. The store's uniqueness constraint and concurrent duplicate signups are not modelled either.
- SignupUser.SignupUserUseCase.Execute: the current variant's implementation is not part of this model. Its test pins only the lookup, the hash argument, an insert, and calls to sign, compile and send. Apart from the factory step it lacks, the model gives it the legacy variant's arguments. It has a `serverUrl` parameter standing for the value its configuration provider supplies.
- Email addresses are compared exactly. Case-insensitive comparison is not modelled.
- ClassesDto.ValidateTransformed: length is counted in Unicode code points. The validation library's own counting rule is not part of this model.
- ClassesDto.ValidateName: reports one reason per rejection. The validation library collects every failing constraint.
- `created_at` is an opaque integer instant. Dates are only copied.
- Promises, `async`/`await`, NestJS decorators and dependency injection are left out. Each step is modelled as a sequential call.
- The database module's wiring and the course and subject search use cases are not modelled. They only delegate to a repository whose code is not shown.
