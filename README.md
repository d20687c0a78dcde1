# A verified model of the learning platform's backend core

This project models, in Dafny, the decision logic of a learning platform's
backend:

- how students sign in with one-time codes, by phone, by email or through the web, and how each channel counts failed attempts against its own ceiling;
- how signed tokens are issued and checked for students, teachers and admins;
- how admins and teachers sign up and log in with passwords;
- how activation codes are generated and redeemed to join an organization, and how students join and leave batches;
- the generic create/read/update layer over the database that all of the above uses;
- the query that lists the live classes of a batch;
- how the next lesson of a learning path is chosen.

The model follows the source code branch by branch. The two defects listed under "## Findings" are kept as written: `StudentSerializers.ValidateCreateStudent` and `LearnService.CreateLessonOutcome` do what the code does, and the corrected versions are separate members (`StudentSerializers.ValidateCreateStudentIntended`, `LearnService.IntendedLessonOutcome`) with lemmas saying where the two differ.

- Every exception the source raises is an `Err` of the shared `Error` datatype.
- A Python crash (a `None` dereference, a failed lookup) is an `Err(InternalError(..))`.
- Stores whose rows the source updates in place are classes over maps, with `modifies` clauses. Their methods are specified by ghost outcome functions, which return what the operation answers and what it leaves in the store. The lemmas about those functions state the properties.
- Signing is symbolic. A token is the claims it was signed over under a key (`Jwt.Sign`), and `Jwt.Unsign` is its partial inverse under the same key. The same holds for bcrypt (`BasicAuth.HashPassword`).
- Time is an integer number of seconds, passed in as `now`.
- Random draws are passed in as sequences.
- Prisma, which is not part of this model, is read as prisma-client-py documents its `update`: a unique `where` that selects no row answers None and writes nothing, and a write that breaks a unique constraint, or an empty `where`, raises (DBUpdate).

Where the prose description of the system and the code differ, the model follows the code:

- A wrong phone or email code adds two to the attempt counter, not one. `verify_otp` passes `otp_attempts + 1` to `set_otp`, which stores its argument plus one (src/students/model.py:133-139 with 326). So nineteen attempts and a wrong code take the counter to 21, not 20 (`StudentModelProperties.NineteenThenLocked`).
- The phone and email logins put no organization in the token, even for a student who has joined one. Only the web login carries it (`StudentServiceProperties.PhoneLoginTokenNamesStudent`, `StudentServiceProperties.WebLoginTokenCarriesOrganization`).

## Model

| member | source | states |
|---|---|---|
| Settings.ParseRole | src/auth/serializers.py:7-10 | `UserRoles(s)` succeeds exactly for "student", "teacher" and "admin", and gives back the role of that name |
| Jwt.Unsign | src/auth/jwt.py:90-92 | decoding succeeds exactly when the token was signed with the same key |
| Jwt.SignUnsign | src/auth/jwt.py:90-92 | decoding under the signing key returns the claims; under any other key it fails |
| Jwt.CreateExpiresDelta | src/auth/jwt.py:34-37 | the expiry is `now` plus the window in minutes, and is not in the past for a non-negative window |
| Jwt.StandardClaims | src/auth/jwt.py:77-88 | the claims are exp, id, role and organization_id, plus phone_number and email exactly when each is truthy |
| Jwt.AdminClaims | src/auth/jwt.py:122-126 | the admin claims are exactly exp, id and role "admin" |
| Jwt.CreateToken | src/auth/jwt.py:39-94 | JwtKeyNotFound without a key; otherwise InfoMissingForJwt unless there is a phone or email, a non-zero id and a role; a token is issued iff all hold, signed with JWT_SECRET_KEY over the standard claims |
| Jwt.CreateAdminToken | src/auth/jwt.py:96-132 | admin key first, then a non-zero id; the token is signed with JWT_ADMIN_SECRET_KEY over the admin claims |
| Jwt.RefreshKeyUnused | src/auth/jwt.py:15 | JWT_REFRESH_SECRET_KEY influences no token |
| Jwt.AccessAndRefreshCoincide | src/config.py:32-33 | both windows are six months, so an access token and a refresh token minted in the same second are the same token |
| AuthUtils.IntClaim | src/auth/serializers.py:41-47 | a required integer claim is present exactly when the key holds an integer |
| AuthUtils.RoleClaim | src/auth/serializers.py:41-47 | a role claim parses exactly when it is a string naming one of the three roles |
| AuthUtils.OptStrClaim | src/auth/serializers.py:41-47 | an optional string claim is None when absent or null, and fails validation when ill-typed |
| AuthUtils.OptIntClaim | src/auth/serializers.py:41-47 | an optional integer claim is None when absent or null, and fails validation when ill-typed |
| AuthUtils.ParsePayload | src/auth/serializers.py:41-47 | the payload validates exactly when id and exp are integers, the role is known, and the optional fields are well typed |
| AuthUtils.ParseAdminPayload | src/admins/serializers.py:27-30 | the admin payload validates exactly when id and exp are integers and the role is known |
| AuthUtils.DecodeToken | src/auth/utils.py:22-38 | one clause per branch: JwtKeyNotFound without a key; CredentialsException when the token does not open under the key or its payload fails validation; TokenExpired for a valid payload whose exp is before now; otherwise exactly the parsed payload |
| AuthUtils.DecodeAdminToken | src/auth/utils.py:41-57 | the same four branches under JWT_ADMIN_SECRET_KEY with the admin payload: JwtKeyNotFound, CredentialsException, TokenExpired, or exactly the parsed payload |
| AuthUtils.UserData | src/auth/utils.py:66-80 | the user dict holds all five payload fields |
| AuthUtils.GetCurrentUser | src/auth/utils.py:60-80 | fails exactly when decoding fails, with the same error; otherwise the user data of the payload |
| AuthUtils.GetCurrentAdmin | src/auth/utils.py:83-97 | decoding errors propagate; any role but admin is RoleNotAuthorized; an admin payload always succeeds, with only id and role |
| AuthUtils.IssueThenDecode | src/auth/utils.py:22-38 | a token create_token issued decodes, up to its expiry, to a payload with the same id, role, handles and organization |
| AuthUtils.IssuedTokenExpires | src/auth/utils.py:34-35 | past its exp the same token is refused as TokenExpired |
| AuthUtils.UnknownRoleNeverValidates | src/auth/jwt.py:73-74 | a role create_token accepts but UserRoles does not know yields a token that never validates |
| AuthUtils.DomainSeparation | src/auth/utils.py:22-57 | under distinct keys an admin token never decodes as a standard token, and a standard token never decodes as an admin token |
| AuthUtils.SharedKeyCrossesDomains | src/auth/utils.py:22-57 | with both keys equal, an admin token validates as a standard token |
| AuthUtils.AdminIssueThenDecode | src/auth/utils.py:83-97 | an admin token passes get_current_admin until it expires, with its id |
| AuthUtils.AdminIssuedTokenExpires | src/auth/utils.py:53-54 | past its exp an admin token is refused as TokenExpired, by decode_admin_token and by get_current_admin |
| OtpHelper.GenerateOtp | src/auth/otp.py:11-20 | the code is six decimal digits, one per draw of randbelow(10) |
| OtpHelper.OtpExpiresAt | src/auth/otp.py:22-29 | a code expires TIME_OUT_MINUTES after now |
| OtpHelper.TokenPair | src/auth/otp.py:31-89 | "token" always and "refresh_token" iff asked for, both issued under JWT_SECRET_KEY over the same subject; fails iff create_token fails, with its error |
| OtpHelper.GetPhoneJwt | src/auth/otp.py:31-59 | succeeds iff the key is set and the number, id and role are non-empty; the tokens carry the phone number |
| OtpHelper.GetEmailJwt | src/auth/otp.py:61-89 | the same, with the email as subject |
| OtpHelper.PhoneTokenHasNoEmail | src/auth/otp.py:31-59 | a phone-login token carries no email claim |
| StudentUtils.ModelUpdatedResponse | src/students/utils.py:19-20 | status is "Success" exactly when success holds, and the message is passed through |
| StudentUtils.EmailOtpCreatedResponse | src/students/utils.py:23-27 | the message names the email |
| StudentUtils.PhoneOtpCreatedResponse | src/students/utils.py:30-34 | the message names the number with its +91 prefix |
| StudentUtils.GetCurrentStudent | src/students/utils.py:37-45 | any role but student is refused; the result holds exactly email, id and role |
| StudentUtils.GetStudentJwt | src/students/utils.py:48-76 | an email-subject pair for role "student" carrying the organization |
| StudentUtils.StudentJwtIsEmailJwt | src/students/utils.py:48-76 | a student pair is exactly an email-login pair for role "student" |
| StudentUtils.StudentGuardAdmitsStudentsOnly | src/students/utils.py:37-39 | a valid token passes the student guard exactly when its role is student |
| StudentUtils.StudentTokenAuthenticates | src/students/utils.py:37-76 | a student access token passes the guard until it expires and names the same student |
| TeacherUtils.GetCurrentTeacher | src/teachers/utils.py:17-25 | any role but teacher is refused; the result holds exactly email, id and role |
| TeacherUtils.GetTeacherJwt | src/teachers/utils.py:28-56 | a pair for role "teacher" carrying email and phone number |
| TeacherUtils.TeacherTokenHasNoOrganization | src/teachers/utils.py:38-44 | a teacher token's organization_id claim is null |
| TeacherUtils.TeacherTokenAuthenticates | src/teachers/utils.py:17-56 | a teacher access token passes the teacher guard and fails the student's |
| StudentDependencies.GetCurrentStudent | src/students/dependencies.py:8-23 | any role but student is refused; email and phone number are kept only when they are not None |
| StudentDependencies.PhoneStudentHasNoEmail | src/students/dependencies.py:17-21 | over a phone-login token the guard keeps the phone number and no email |
| StudentSerializers.VerifyEmailOrPhonePresent | src/students/serializers.py:10-18 | refused with NoEmailOrPhoneGiven exactly when neither handle is truthy; otherwise the values unchanged |
| StudentSerializers.VerifyOtpAndExpiryPresentAsWritten | src/students/serializers.py:21-29 | reads the code from the key "opt" |
| StudentSerializers.VerifyOtpAndExpiryPresent | src/students/serializers.py:21-29 | refused with OtpExpiryNotSet exactly when a code is set without an expiry |
| StudentSerializers.OptKeyNeverPresent | src/students/serializers.py:23 | on CreateStudent values the as-written validator never refuses |
| StudentSerializers.OtpWithoutExpiryPassesAsWritten | src/students/serializers.py:23-27 | a code without an expiry passes as written and is refused as intended |
| StudentSerializers.ExpirySetMakesThemAgree | src/students/serializers.py:21-29 | where an expiry is set the two validators agree |
| StudentSerializers.ValidateCreateStudent | src/students/serializers.py:52-58 | the two validators as written, in declaration order: refused exactly when no handle is truthy (NoEmailOrPhoneGiven) or the absent key "opt" is set without an expiry (OtpExpiryNotSet) |
| StudentSerializers.ValidateCreateStudentIntended | src/students/serializers.py:52-58 | the corrected schema: refused exactly when no handle is truthy or a set code has no expiry, the first refusal winning |
| StudentSerializers.CreateStudentSchemaAsWritten | src/students/serializers.py:52-58 | on CreateStudent values the schema as written checks only the handles, and agrees with the corrected schema whenever an expiry is set |
| StudentSerializers.ValidateStudentTokenPayload | src/students/serializers.py:78-80 | only the email-or-phone validator runs |
| CrudBase.ClassifyCreateError | src/crud_base.py:136-140 | a unique-constraint message is a UniqueConstraint error, any other is a DBCreate error |
| CrudBase.GetUpdateData | src/crud_base.py:33-42 | a dict passes through; a schema gives exactly its explicitly set fields |
| CrudBase.DropNone | src/crud_base.py:60 | exactly the fields whose value is not None |
| CrudBase.UpdateOldData | src/crud_base.py:44-60 | each field of old_data named by the update takes its value, the others keep theirs, and the result has no None field |
| CrudBase.UpdateMergeAt | src/crud_base.py:156-168 | update: a field takes the edit's value unless the edit is None, and then keeps its stored value |
| CrudBase.UpdateByEmailMergeAt | src/crud_base.py:170-182 | update_by_email: in addition, a field that is None stays None |
| CrudBase.UpdateByEmailCannotFillNone | src/crud_base.py:156-182 | the two differ exactly on a None field that the edit sets |
| CrudBase.Table.GetRecord | src/crud_base.py:62-74 | the row with the id, or RecordNotFound |
| CrudBase.Table.RowIdByEmailUnique | src/crud_base.py:100-104 | under the unique constraint, at most one row holds an email |
| CrudBase.Table.WriteRow | src/crud_base.py:156-182 | a write that would duplicate an email is refused as DBUpdate and changes nothing |
| CrudBase.Table.Update | src/crud_base.py:156-168 | no row with the id: None and nothing written; a merged record that would duplicate another row's email: DBUpdate and nothing written; otherwise the row becomes the merged record without its None fields, and no other row changes |
| CrudBase.Table.UpdateByEmail | src/crud_base.py:170-182 | no row holds the email: None and nothing written; a duplicate email: DBUpdate; otherwise only the old object's non-None fields are merged into that row, and the write succeeds |
| CrudBase.Table.Create | src/crud_base.py:130-140 | a duplicated email is the unique violation; another database failure is DBCreate; otherwise the row is stored under the next id |
| StudentModel.NewStudent | src/students/serializers.py:43-50 | a created row holds the handles and code given, counters at zero, and no organization, batch or web code |
| StudentModel.VerifyPhoneStep | src/students/model.py:121-158 | code present, then the phone ceiling, then equality, then a strict expiry; a wrong code writes the count plus one |
| StudentModel.VerifyWebStep | src/students/model.py:168-210 | code present, then an organization, then the web ceiling, then equality, then expiry; success resets the web counter |
| StudentModel.VerifyEmailStep | src/students/model.py:220-256 | as for the phone, with the email ceiling; the demo account skips only the equality check |
| StudentModel.ResolveUnique | src/crud_base.py:184-189 | under the store invariant a `where` by id, email or phone selects at most one row |
| StudentModel.ReplaceKeepsInvariant | src/crud_base.py:184-189 | rewriting one row without changing its handles keeps the invariant |
| StudentModel.ReportsId | src/students/model.py:153-158 | a successful verification reports the id stored in the row |
| StudentModel.OtpWhere | src/students/model.py:315-319 | set_otp selects by phone number when it is truthy, else by email when that is truthy, else nothing |
| StudentModel.JoinWhere | src/students/model.py:41-45 | join_organization selects by id when it is truthy, else by email when that is truthy, else nothing |
| StudentModel.StudentStore.UpdateField | src/crud_base.py:184-189 | an empty `where` is DBUpdate; a `where` selecting no row answers None and writes nothing; otherwise the edit is applied to the selected row only |
| StudentModel.StudentStore.GetUnique | src/crud_base.py:88-93 | the row by id, or "No such unique record found" |
| StudentModel.StudentStore.Get | src/crud_base.py:62-74 | the row by id, or RecordNotFound |
| StudentModel.StudentStore.GetByEmail | src/crud_base.py:100-104 | the row holding the email, or None |
| StudentModel.StudentStore.GetByPhoneNumber | src/crud_base.py:106-112 | the row holding the number, or None |
| StudentModel.StudentStore.VerifyOtp | src/students/model.py:116-161 | the answer and the new table are PhoneVerifyOutcome of the old table |
| StudentModel.StudentStore.VerifyWebOtp | src/students/model.py:163-213 | the answer and the new table are WebVerifyOutcome of the old table |
| StudentModel.StudentStore.VerifyEmailOtp | src/students/model.py:215-259 | the answer and the new table are EmailVerifyOutcome of the old table |
| StudentModel.StudentStore.SetOtp | src/students/model.py:298-328 | the selected row gets the code, the expiry and the given count plus one; no row: nothing written; no handle at all: DBUpdate |
| StudentModel.StudentStore.SetWebOtp | src/students/model.py:261-275 | the row gets the web code, its expiry and the given count plus one; an unknown id writes nothing |
| StudentModel.StudentStore.SetActivationAttempt | src/students/model.py:277-296 | the counter is 0 after a correct attempt, otherwise one more than stored; nothing else changes |
| StudentModel.StudentStore.JoinOrganization | src/students/model.py:26-57 | the selected row gets the organization and live classes enabled; a `where` selecting no row writes nothing and still answers success; neither id nor email is DBUpdate |
| StudentModel.StudentStore.JoinBatch | src/students/model.py:59-77 | only batch_id changes; an unknown id writes nothing and gets the same answer |
| StudentModel.StudentStore.LeaveBatch | src/students/model.py:79-94 | batch_id becomes None and nothing else changes; an unknown id writes nothing and gets the same answer |
| StudentModel.StudentStore.Deactivate | src/students/model.py:96-114 | is_active becomes false and nothing else changes; an unknown id writes nothing and gets the same answer |
| StudentModel.StudentStore.Create | src/crud_base.py:130-140 | a taken handle is the unique violation; otherwise a new row under the next id |
| StudentModelProperties.CorrectButExpired | src/students/model.py:127-142 | a correct code past its expiry is OtpExpired and nothing is written |
| StudentModelProperties.WrongAndExpired | src/students/model.py:127-142 | equality is checked before expiry: a wrong, expired code is IncorrectOtp and counted |
| StudentModelProperties.ExpiryAtNowAccepted | src/students/model.py:141-142 | the expiry comparison is strict: a code expiring now is accepted |
| StudentModelProperties.PhoneCodeReusable | src/students/model.py:144-151 | a successful phone verification does not clear the code, so it verifies again until it expires |
| StudentModelProperties.NineteenThenLocked | src/students/model.py:124-139 | at 19 attempts a wrong code takes the counter to 21, and every later attempt hits the ceiling |
| StudentModelProperties.WrongCodesCountTwice | src/students/model.py:127-139 | k wrong codes below the ceiling add 2k to the counter and change nothing else |
| StudentModelProperties.LockoutIsPermanent | src/students/model.py:124-125 | at the ceiling, attempts change nothing |
| StudentModelProperties.TenWrongCodesLockOut | src/students/model.py:124-139 | ten wrong codes from zero lock out even the right code |
| StudentModelProperties.DemoAccountAnyCode | src/students/model.py:226-244 | the demo account passes equality with any code, but not the expiry |
| StudentModelProperties.DemoAccountStillLimited | src/students/model.py:220-224 | the demo account still needs a stored code below the ceiling |
| StudentModelProperties.WebNeedsOrganization | src/students/model.py:168-172 | a web code without an organization is UserNotVerified and nothing is written |
| StudentModelProperties.ChannelsKeepSeparateCounters | src/students/model.py:116-259 | phone and email attempts never touch the web counter, and web attempts never touch the code counter |
| StudentService.DeleteSecrets | src/students/service.py:25-32 | drops the login code and the activation code and nothing else |
| StudentService.DeleteSecretsKeepsWebOtp | src/students/service.py:25-32 | the web code survives delete_secrets |
| StudentService.CreateStudentValues | src/students/service.py:70-72 | an unknown handle is created with the handle, the code and its expiry |
| StudentService.EmailCode | src/students/service.py:83-90 | the guest account always gets the fixed code, everyone else the drawn one |
| StudentService.LoginResponse | src/students/service.py:162-168 | the model's answer without "id", plus both tokens |
| StudentService.StudentService.CreateStudentOtp | src/students/service.py:44-76 | the answer and the new table are PhoneIssueOutcome of the old table |
| StudentService.StudentService.CreateEmailOtp | src/students/service.py:78-117 | the answer and the new table are EmailIssueOutcome of the old table, for the code EmailCode chooses |
| StudentService.StudentService.GetWebOtp | src/students/service.py:119-137 | the answer and the new table are WebIssueOutcome of the old table |
| StudentService.StudentService.VerifyOtp | src/students/service.py:171-185 | the answer and the new table are PhoneLoginOutcome of the old table |
| StudentService.StudentService.VerifyEmailOtp | src/students/service.py:154-169 | the answer and the new table are EmailLoginOutcome of the old table |
| StudentService.StudentService.VerifyWebOtp | src/students/service.py:187-204 | the answer and the new table are WebLoginOutcome of the old table |
| StudentServiceProperties.InsertKeepsInvariant | src/crud_base.py:130-140 | adding a row with fresh handles under the counter keeps the invariant |
| StudentServiceProperties.PhoneIssueKeepsInvariant | src/students/service.py:44-76 | phone issuance keeps ids keyed and handles unique |
| StudentServiceProperties.EmailIssueKeepsInvariant | src/students/service.py:78-117 | email issuance keeps the invariant |
| StudentServiceProperties.LockedPhoneIssueChangesNothing | src/students/service.py:53-57 | at the phone ceiling issuance is refused and the stored code, expiry and counter stay |
| StudentServiceProperties.ReissueCountsUp | src/students/service.py:53-66 | reissuing overwrites code and expiry and adds one; issuance never resets the counter |
| StudentServiceProperties.UnknownPhoneCreatesStudent | src/students/service.py:70-76 | an unknown number becomes a new student under the next id with the fresh code; an empty one is refused |
| StudentServiceProperties.GuestGetsFixedCode | src/students/service.py:83-117 | the guest account receives the fixed code whatever was drawn |
| StudentServiceProperties.WebIssueCountsUp | src/students/service.py:119-137 | refused at the ceiling; below it the fresh code is stored with the counter one up and returned |
| StudentServiceProperties.IssuedPhoneCodeVerifies | src/students/service.py:44-76 | an issued phone code verifies with its number until it expires, if the issue left the counter below the ceiling |
| StudentServiceProperties.NineteenthCodeIsUnusable | src/students/service.py:53-66 | a code issued at 19 attempts is reported sent but can never be verified |
| StudentServiceProperties.PhoneLoginTokenNamesStudent | src/students/service.py:171-185 | a phone login answers without the id, with a student pair for the number's owner and no organization |
| StudentServiceProperties.LoginWithoutKeyStillVerifies | src/students/service.py:171-185 | without a signing key the login fails after the student was already marked verified |
| StudentServiceProperties.FailedLoginMintsNothing | src/students/service.py:171-185 | a failed login answers with the model's error |
| StudentServiceProperties.WebLoginTokenCarriesOrganization | src/students/service.py:187-204 | a web login token carries the student's organization |
| ActivationCodeUtils.Spell | src/organizations/activation_codes/utils.py:23 | a candidate is ten letters or digits, one per draw |
| ActivationCodeUtils.FirstAcceptable | src/organizations/activation_codes/utils.py:21-29 | the first accepted candidate; all earlier ones are rejected |
| ActivationCodeUtils.AlphabetIsAlphanumeric | src/organizations/activation_codes/utils.py:18 | the alphabet is 62 ASCII letters and digits |
| ActivationCodeUtils.GenerateActivationCode | src/organizations/activation_codes/utils.py:5-29 | the code is the first accepted candidate: ten alphanumerics with a lower-case letter, an upper-case letter and at least three digits |
| ActivationCodeUtils.NoDigitsCountZero | src/organizations/activation_codes/utils.py:27 | a string without digits counts none |
| ActivationCodeUtils.LettersOnlyRejected | src/organizations/activation_codes/utils.py:24-28 | a candidate of letters alone is always rejected |
| ActivationCodeModel.VerifyActivationCode | src/organizations/activation_codes/model.py:15-34 | "No such unique record found" iff no record has the email; IncorrectActivationCode iff the stored code differs; otherwise that record |
| ActivationCodeModel.OnlyTheStoredCodeVerifies | src/organizations/activation_codes/model.py:27-34 | two codes that both verify for an email are equal |
| ActivationCodeModel.ActivationCodeStore.Create | src/crud_base.py:130-140 | a second code for an email is the unique violation and changes nothing; otherwise a record under the next id |
| ActivationCodeService.RecordOf | src/organizations/activation_codes/service.py:24-26 | the returned record's keys |
| ActivationCodeService.CreatedCodeVerifies | src/organizations/activation_codes/service.py:14-26 | the code returned is the one stored, verifies for the email with the request's organization, and the returned record omits it |
| ActivationCodeService.SecondCodeRefused | src/organizations/activation_codes/service.py:14-26 | a student with a code cannot be given a second one |
| ActivationCodeService.ActivationCodeService.Create | src/organizations/activation_codes/service.py:14-26 | the answer and the new table are CreateOutcome for the generated code, and a returned code is acceptable |
| Organizations.JoinedResponse | src/students/model.py:52-54 | the reply names the organization joined |
| Organizations.CorrectCodeJoins | src/organizations/service.py:46-64 | a correct code resets the counter, sets the organization and enables live classes on that student and no other |
| Organizations.WrongCodeCounts | src/organizations/service.py:65-69 | a wrong code adds one to the counter, changes nothing else, and is IncorrectActivationCode |
| Organizations.NothingWrittenBeforeTheReset | src/organizations/service.py:48-60 | a missing code record or organization fails before anything is written |
| Organizations.RedeemSucceedsIff | src/organizations/service.py:39-69 | redeeming succeeds exactly when the code matches, its organization exists and a student holds the email; there is no capacity check |
| Organizations.RedeemTouchesOneStudent | src/organizations/service.py:39-69 | only the row holding the email can change, and the invariant holds |
| Organizations.OrganizationService.Get | src/organizations/service.py:22-24 | the organization by id, or RecordNotFound |
| Organizations.OrganizationService.AddStudentToOrganization | src/organizations/service.py:39-69 | the answer and the new table are RedeemOutcome of the old stores |
| OrganizationRouter.CeilingRefusesEveryCode | src/organizations/router.py:133-134 | at the ceiling every code is refused and nothing is written |
| OrganizationRouter.MissingEmailFailsUnhandled | src/organizations/router.py:135-138 | below the ceiling, a student without a stored email makes building the request model raise, an unhandled error, and nothing is written |
| OrganizationRouter.JoinChangesOnlyTheCaller | src/organizations/router.py:126-139 | no other student's row changes |
| OrganizationRouter.JoinWithCorrectCode | src/organizations/router.py:126-139 | below the ceiling a correct code joins the caller, as the admin route would |
| OrganizationRouter.AdminRouteHasNoCeiling | src/organizations/router.py:90-95 | the admin route joins a student the join route refuses at the ceiling |
| OrganizationRouter.WrongTriesCount | src/organizations/router.py:126-139 | each wrong code adds one to the caller's counter and changes nothing else |
| OrganizationRouter.GuessingLocksOut | src/organizations/router.py:133-134 | after MAX_ACTIVATION_ATTEMPTS wrong codes from zero even the right code is refused |
| OrganizationRouter.JoinOrganization | src/organizations/router.py:126-139 | the answer and the new table are JoinOutcome of the old stores |
| OrganizationRouter.RemoveStudentFromBatch | src/organizations/router.py:117-123 | the student's batch is cleared and nothing else changes; an unknown id writes nothing and is answered with success |
| BatchService.AddToBatchSucceedsIff | src/organizations/batches/service.py:33-43 | joining succeeds iff both exist and the student is in the batch's organization; on success only batch_id changes; on failure nothing does |
| BatchService.OutsideOrganizationRefused | src/organizations/batches/service.py:38-39 | a batch of another organization is refused, as is every batch for a student without one |
| BatchService.StudentLookedUpFirst | src/organizations/batches/service.py:36-37 | with both missing, the student's id is reported |
| BatchService.RejoinIsIdempotent | src/organizations/batches/service.py:33-43 | joining the batch one is in changes nothing |
| BatchService.BatchService.Get | src/organizations/batches/service.py:20-22 | the batch by id, or RecordNotFound |
| BatchService.BatchService.AddStudentToBatch | src/organizations/batches/service.py:33-43 | the answer and the new table are AddToBatchOutcome of the old stores |
| BasicAuth.HashPassword | src/auth/basic_auth.py:52-53 | the stored credential is a hash, never the plaintext |
| BasicAuth.VerifyPassword | src/auth/basic_auth.py:55-56 | true exactly for the password the hash was made from; a stored value that is not a hash is an error |
| BasicAuth.HashThenVerify | src/auth/basic_auth.py:52-56 | a hash verifies its password and no other, whatever the salt |
| BasicAuth.GetAdminJwt | src/auth/basic_auth.py:114-127 | an admin token, plus a refresh token iff asked for |
| BasicAuth.AdminLogin | src/auth/basic_auth.py:58-70 | an unknown username crashes at line 64 (an internal error); then the password, then the verified flag, each refused exactly when it fails; otherwise an admin pair for the id |
| BasicAuth.TeacherLogin | src/auth/basic_auth.py:72-90 | not found, then the password, then phone verification, then active, each refused exactly when it fails; a teacher passing all four gets a teacher pair with email and phone exactly when the key is set and the id is non-zero |
| BasicAuth.WrongHandlerSignsNobodyUp | src/auth/basic_auth.py:92-112 | a handler for another role signs no one up and writes nothing |
| BasicAuth.AdminSignupKeepsInvariant | src/auth/basic_auth.py:92-101 | signup keeps the admin table's invariant |
| BasicAuth.TeacherSignupKeepsInvariant | src/auth/basic_auth.py:103-112 | signup keeps the teacher table's invariant |
| BasicAuth.SignedUpAdminLogsIn | src/auth/basic_auth.py:58-101 | a new admin logs in with the chosen password and no other, once verified |
| BasicAuth.SignedUpTeacherLogsIn | src/auth/basic_auth.py:72-112 | a new teacher logs in with the chosen password and no other |
| BasicAuth.AdminTokenOnlyUnderAdminKey | src/auth/basic_auth.py:114-127 | under distinct keys the standard decoder cannot open an admin token |
| BasicAuth.BasicAuthHandler.AdminSignup | src/auth/basic_auth.py:92-101 | the answer and the new table are AdminSignupOutcome of the old table |
| BasicAuth.BasicAuthHandler.TeacherSignup | src/auth/basic_auth.py:103-112 | the answer and the new table are TeacherSignupOutcome of the old table |
| LiveClassService.Filter | src/crud_base.py:76-80 | exactly the rows the `where` selects; all rows when all match, none when none do |
| LiveClassService.FilterConcat | src/crud_base.py:76-80 | the selection keeps table order: selecting from two runs of rows is selecting from the first followed by the second |
| LiveClassService.FindMany | src/crud_base.py:76-80 | the i-th result is the (skip+i)-th selected row, and there are min(limit, selected minus skip) of them |
| LiveClassService.ByBatchWhere | src/live_class/service.py:32-43 | the `where` is the batch, plus a start range only when `_from` is given |
| LiveClassService.ByBatchSelects | src/live_class/service.py:32-43 | a class is selected iff it is of the batch and, given `_from`, starts between `_from` and `_to` (or now) inclusive |
| LiveClassService.ToIgnoredWithoutFrom | src/live_class/service.py:41-43 | without `_from`, `_to` is ignored |
| LiveClassService.CheckBatchAccess | src/live_class/router.py:35-36 | a student sees only their own batch's classes |
| LiveClassService.LiveClassService.GetByBatch | src/live_class/service.py:24-45 | the answer is FindMany over the stored classes with ByBatchWhere |
| LearnService.Latest | src/learn/service.py:45-52 | the newest selected lesson |
| LearnService.FindOne | src/learn/service.py:59-61 | a module satisfying the filter that no earlier module satisfies; None exactly when no module satisfies it |
| LearnService.NextPlacement | src/learn/service.py:112-125 | the next topic in the module, or topic 1 of the next module past the count |
| LearnService.LastMatch | src/learn/service.py:136-139 | the last topic with the id, if any |
| LearnService.ScanTopics | src/learn/service.py:136-139 | the loop's result is LastMatch |
| LearnService.ChooseTopicAsWritten | src/learn/service.py:136-144 | fails when no topic matches |
| LearnService.ChooseTopic | src/learn/service.py:136-144 | the last matching topic, or topic 1 titled with the module's name |
| LearnService.FallbackUnreachableAsWritten | src/learn/service.py:140-144 | the two agree when a topic matches; otherwise the code as written fails |
| LearnService.WellNumberedNeverFails | src/learn/service.py:136-140 | on a well-numbered module every topic id within the count is found |
| LearnService.FirstTopic | src/learn/service.py:64-74 | module 1's first topic, or topic 1 titled with its name |
| LearnService.KeyedByPosition | src/learn/service.py:89 | lessons are keyed by their position |
| LearnService.CreateAppendsAtMostOne | src/learn/service.py:41-164 | create_lesson leaves the collection alone or appends exactly the lesson it returns, unfinished |
| LearnService.UnfinishedLessonReturned | src/learn/service.py:95-96 | an unfinished newest lesson is returned and nothing is generated |
| LearnService.NextTopicSameModule | src/learn/service.py:112-114 | after a topic that is not the module's last, the next topic of the same module |
| LearnService.MovesToNextModule | src/learn/service.py:114-144 | after the last topic of a module: topic 1 of the next module when it has one; a next module without topic 1 fails on the missing title and stores nothing; no next module is an error naming the finished one |
| LearnService.FirstLesson | src/learn/service.py:54-93 | a user's first lesson is on module 1's first topic |
| LearnService.IntendedDiffersOnlyOnMissingTopic | src/learn/service.py:136-144 | create_lesson as written and as intended agree except where the topic scan finds nothing; there the code as written fails and stores nothing, and the intended flow stores a lesson on topic 1 |
| LearnService.FinishingCountsDown | src/learn/service.py:191-194 | finishing a lesson lowers the count of unfinished ones by one |
| LearnService.LearnService.CreateLesson | src/learn/service.py:41-164 | the answer and the new collection are CreateLessonOutcome, the flow as written: a next topic that is not found fails with the missing-title error |
| LearnService.LearnService.GetCurrentLesson | src/learn/service.py:20-39 | the newest unfinished lesson, else CreateLessonOutcome as written |
| LearnService.LearnService.FinishLesson | src/learn/service.py:174-195 | the newest unfinished lesson is marked finished and its key returned; None when there is none |

## Left out

- Cryptography: HS256 signing and bcrypt are symbolic. Nothing about key strength, forgery, or collisions is modelled.
- Network and e-mail/SMS I/O: sending the code (the email service, the SMS gateway) is not modelled. Only the stored state and the reply are.
- The language model call in learn/service.py:197-212 and the JSON parsing of its output: the sections are a parameter.
- src/openai/service.py is not part of this model.
- Concurrency: every operation is atomic; interleaved requests are not modelled.
- Datetime formatting: expiries are integer seconds; the ISO strings of otp.py:25-27 are not modelled.
- Time zones: the naive/UTC mix of `datetime.now()` and `datetime.utcnow()` is not modelled.
- OtpHelper.GenerateOtp: the caller must supply six draws in 0..9, which is what randbelow(10) guarantees.
- ActivationCodeUtils.GenerateActivationCode: requires that the random candidates eventually include an acceptable one. The source loops without bound, and termination with probability one is not modelled.
- Foreign keys: batches and activation codes are assumed to name organizations, and students to name batches. Only what the source checks itself is checked.
- The Mongo lesson collection is a sequence in insertion order, and `created_at` descending is read as "last inserted first".
- LiveClassService.FindMany: skip and limit are natural numbers; Prisma's behaviour for negative values is not modelled.
- OrganizationService.create, get_org_by_name and update_organization, and the matching routes of organizations/router.py:32-87: one-line delegations to the CRUD layer. create is not modelled; get is modelled as `Organizations.OrganizationService.Get`.
- ActivationCodeService.get, get_all, get_activation_code_by_email and update_activation_code, and BatchService.create and update_batch: likewise thin delegations.
- StudentService.create_student, update_student, deactivate_account, delete_student and the get_student* wrappers: delegations to `StudentModel.StudentStore` methods, which are modelled.
- crud_base.py get_groups, get_first, get_all, conditional_get_all, create_many, remove and remove_by_email: not used by the modelled flows.
- Teachers' unique phone-number constraint: the teacher table is keyed by email, and a duplicate phone number is not refused.
- BasicAuth.AdminSignupOutcome / BasicAuth.TeacherSignupOutcome: the database defaults of a new row's flags come from the Prisma schema, which is not part of this model, so they are constants of the stores.
- StudentModel.NewStudent: the defaults of a new student row come from the Prisma schema, which is not part of this model. The model assumes counters at zero, no organization, batch or web code, and every flag false; a different schema default would change the first login's outcomes.
- AuthUtils.DecodeToken / AuthUtils.DecodeAdminToken: python-jose's jwt.decode checks exp itself and raises ExpiredSignatureError, a JWTError the source turns into CredentialsException; that library check is not modelled, so the model answers TokenExpired for a token the library would already refuse as CredentialsException.
- AuthUtils.IssuedTokenExpires / AuthUtils.AdminIssuedTokenExpires: for the same reason they state the handler's own expiry check (TokenExpired), not what the library answers first.
- LearnService.create_new_module: inserts a module, with no logic to model.

## Findings

| source | as written | input that shows it | evidently intended | confidence | as-written member | corrected member |
|---|---|---|---|---|---|---|
| src/students/serializers.py:23 | the validator reads the code from the key "opt", which no schema has, so it never refuses | CreateStudent values with otp = "123456" and otp_expires_at = None | refuse a set OTP without an expiry (OtpExpiryNotSet), as its docstring says | high, not executed | StudentSerializers.OtpWithoutExpiryPassesAsWritten | StudentSerializers.VerifyOtpAndExpiryPresent |
| src/learn/service.py:140 | `next_topic.title` is read before the fallback of lines 143-144, so when no topic matches the request crashes and the fallback is unreachable | moving into a next module whose topic list is empty | use topic 1 titled with the module's name when no topic matches | high, not executed | LearnService.FallbackUnreachableAsWritten | LearnService.ChooseTopic |
