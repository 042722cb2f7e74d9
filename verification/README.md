# Controller app request-boundary core, in Dafny

This project models the request-boundary logic of a Spring Boot service that
other services call with Microsoft Entra ID tokens. It covers five pieces:

- **Correlation filter** (`CorrelationFilter.doFilter`). It takes the inbound
  `X-Correlation-Id` header, or a freshly generated UUID when the header is
  null or blank. It publishes that ID in the logging context (the SLF4J MDC)
  and on the response while the rest of the chain runs. It then always
  removes the ID from the MDC, whether the chain returned or threw.
- **Service audit** (`ServiceAuditService`). `extractCallingService` picks
  the caller's identity from the `appid` claim, then the `azp` claim, then
  the sentinel `"unknown-service"`. `audit` reads the correlation ID from
  the MDC, builds a validated `ServiceAuditEvent` and writes exactly one
  `SERVICE_AUDIT {...}` log line with six fields in a fixed order.
- **Audit event** (`ServiceAuditEvent`). The record's compact constructor
  rejects a null or blank calling service, then a null or blank action, and
  fills in a missing timestamp.
- **Role conversion** (`JwtRoleConverter.convert`). It turns the `roles`
  claim into `ROLE_`-prefixed granted authorities. The result keeps the
  list's order and its duplicates.
- **Audience validation** (`AudienceValidator`). It accepts a token only
  when its `aud` claim (RFC 7519, section 4.1.3) contains the configured
  audience. Every rejection is the same constant `invalid_token` error.

Modules, one per source file plus shared helpers:

- `Wrappers`: `Option`, `Result` and `Outcome`. Java `null` is `None`; a
  thrown exception is a `Failure`/`Fail` value.
- `JavaText`: `Character.isWhitespace` and `String.isBlank`, plus the way a
  `null` argument is printed.
- `Claims`: the token claims the core reads.
- `Uuid`: `java.util.UUID` and its canonical text form.
- `Mdc`: the MDC as a class over a `map<string, string>`.
- `AuditEvent`, `ServiceAudit`, `CorrelationFilter`, `JwtRoleConverter` and
  `AudienceValidation`: the five source files.

State the source changes in place is modelled imperatively:

- `MdcContext`, `HttpResponse`, `AuditLog` and `ServiceAuditService` are
  classes.
- `DoFilter` and `Audit` are methods with `modifies` clauses.

The pure parts are functions with lemmas:

- claim precedence;
- event construction;
- role conversion;
- audience validation;
- the text of the log line.

The downstream filter chain is a function from what it can observe (the MDC
and the response headers) to what it leaves behind and whether it threw.
`DoFilter`'s contract therefore holds for every possible chain.

The log line is the template that `log.info` receives, with its six `{}`
placeholders filled in verbatim. Nothing is escaped. The model proves two
things about it:

- The line is `SERVICE_AUDIT {` followed by the six `"key":"value"` members
  in order and a closing `}`.
- Reading the line back returns the six values if and only if none of them
  contains a double quote.

It also exhibits two different valid events that produce the very same line
once a value does contain a quote.

The role converter's documentation speaks of an authority *set*; the code
returns a list that keeps order and duplicates, and the model follows the
code.

A `roles` claim that is present but malformed is not treated as "no roles":

- A claim that is not a list fails the cast to `List` with a
  `ClassCastException`.
- A list element that is not a string fails the implicit cast to `String`
  when the prefix is added to it.
- A `null` element passes that cast and becomes `ROLE_null`.

## Model

| member | source | states |
|---|---|---|
| ServiceAudit.ExtractCallingService | src/main/java/com/controllerapp/audit/ServiceAuditService.java:28-40 | The calling service is never blank, and it is always the `appid` value, the `azp` value or `"unknown-service"`. |
| ServiceAudit.ExtractCallingServicePrecedence | src/main/java/com/controllerapp/audit/ServiceAuditService.java:29-39 | The result equals the reference rule "first non-null, non-blank candidate of [appid, azp], else the sentinel". A usable `appid` wins whatever `azp` holds. `azp` is used only when `appid` is null or blank. The sentinel is returned only when both are null or blank. |
| JavaText.IndexOfNonWhitespace | src/main/java/com/controllerapp/audit/ServiceAuditEvent.java:19-24 | The scan behind `isBlank` stops at the first character that is not whitespace, and every character before it is whitespace. |
| JavaText.BlankIffScanReachesEnd | src/main/java/com/controllerapp/audit/CorrelationFilter.java:44 | A string is blank if and only if that scan runs to its end; in particular the empty string is blank. |
| JavaText.WhitespaceExamples | src/main/java/com/controllerapp/audit/ServiceAuditService.java:30-35 | Space, tab, line breaks, the em space and the ideographic space count as whitespace. The three non-breaking spaces and visible characters do not. |
| JavaText.BlankExamples | src/main/java/com/controllerapp/audit/ServiceAuditEvent.java:19-24 | The empty string and a run of spaces, tabs and newlines are blank. A string with a letter, or a lone non-breaking space, is not. |
| ServiceAudit.ExtractCallingServiceExamples | src/main/java/com/controllerapp/audit/ServiceAuditService.java:28-40 | Claims {appid svc-a, azp svc-b} give svc-a. Claims {azp svc-b} give svc-b. A blank appid with no azp gives `"unknown-service"`. |
| ServiceAudit.AuditRecord | src/main/java/com/controllerapp/audit/ServiceAuditService.java:46-55 | The event `audit` builds succeeds exactly when callingService and action are both non-null and non-blank, and then it is valid. Its timestamp is the clock reading. Its callingService and action are the caller's arguments. Its correlationId is whatever the MDC holds under `correlationId`, or null. Endpoint and resourceId are passed through. Otherwise it fails with the constructor's error, callingService first. |
| ServiceAudit.ServiceAuditService.Audit | src/main/java/com/controllerapp/audit/ServiceAuditService.java:45-65 | The MDC is left unchanged. On success exactly one line, the event's audit line, is appended to the log. On a blank callingService or action the call fails with the constructor's exception and the log is unchanged, because construction precedes the log call. |
| ServiceAudit.AuditLog.Info | src/main/java/com/controllerapp/audit/ServiceAuditService.java:57 | Writing to the log appends exactly one line after the earlier ones. |
| ServiceAudit.SubstituteFrames | src/main/java/com/controllerapp/audit/ServiceAuditService.java:57-64 | `{}` substitution opens with the first template piece and closes with the last. Its length is the pieces' plus the values', so nothing is escaped, dropped or added. |
| ServiceAudit.AuditValues | src/main/java/com/controllerapp/audit/ServiceAuditService.java:59-64 | There are six arguments. Each is the text of the event field that its key in the template names, a null field printing as `null`. |
| ServiceAudit.AuditLine | src/main/java/com/controllerapp/audit/ServiceAuditService.java:57-64 | The formatted message opens with `SERVICE_AUDIT {"service":"` and ends with `"}`. Its length is the template's plus the six values'. |
| ServiceAudit.AuditLineLayout | src/main/java/com/controllerapp/audit/ServiceAuditService.java:57-64 | The substituted template is `SERVICE_AUDIT {`, then the members service, action, resourceId, endpoint, correlationId and timestamp in that order, each holding the event's value verbatim (a null prints as `null`), then `}`. |
| ServiceAudit.AuditLineFraming | src/main/java/com/controllerapp/audit/ServiceAuditService.java:57-58 | Every audit line starts with the marker `SERVICE_AUDIT` and ends with `}`. |
| ServiceAudit.AuditLineRoundTrip | src/main/java/com/controllerapp/audit/ServiceAuditService.java:57-64 | Reading the line back gives exactly the six values in key order if and only if no value contains a double quote. |
| ServiceAudit.LineRoundTrip | src/main/java/com/controllerapp/audit/ServiceAuditService.java:57-64 | For any key list, the marker line of those members reads back as the values if and only if they are quote-free. |
| ServiceAudit.MembersRoundTrip | src/main/java/com/controllerapp/audit/ServiceAuditService.java:57-58 | Comma-joined `"key":"value"` members with quote-free values parse back to the same values (induction on the keys). |
| ServiceAudit.MembersQuoteBreaksRoundTrip | src/main/java/com/controllerapp/audit/ServiceAuditService.java:57-64 | Once any value contains a double quote, the members no longer parse back to the values: the reader stops at that quote, inside the value (induction on the keys). |
| ServiceAudit.SubstituteMembers | src/main/java/com/controllerapp/audit/ServiceAuditService.java:57-58 | Filling a template of key openings, separators and a closing brace yields the prefix, the joined members and `}` (induction on the keys). |
| ServiceAudit.TemplateForAuditKeys | src/main/java/com/controllerapp/audit/ServiceAuditService.java:57-58 | The literal message template is exactly the member template for the six audit keys, in order, behind `SERVICE_AUDIT {`. |
| ServiceAudit.UnescapedQuotesAreAmbiguous | src/main/java/com/controllerapp/audit/ServiceAuditService.java:57-64 | Values are interpolated without escaping. So two different valid events, one with calling service `p","action":"q` and action `r`, the other with `p` and `q","action":"r`, produce identical audit lines. |
| ServiceAudit.AuditInsideFilterCarriesResolvedId | src/main/java/com/controllerapp/audit/ServiceAuditService.java:46 | An audit made in the MDC that the filter set up records the filter's resolved ID as its correlationId, and writes it as the fifth value of the line. |
| AuditEvent.NewServiceAuditEvent | src/main/java/com/controllerapp/audit/ServiceAuditEvent.java:18-28 | Construction succeeds exactly when callingService and action are both non-null and non-blank. A null or blank callingService fails with its own message, even when action is blank too. Otherwise a null or blank action fails with the action message. A successful event is valid and keeps every given field. Its timestamp is the given one, or the clock reading when the given one is null. |
| AuditEvent.UncheckedComponentsMayBeBlank | src/main/java/com/controllerapp/audit/ServiceAuditEvent.java:10-17 | endpoint, resourceId and correlationId are not checked: a null endpoint, an empty resourceId and a null correlationId are accepted, and the missing timestamp becomes the clock reading. |
| CorrelationFilter.GetHeader | src/main/java/com/controllerapp/audit/CorrelationFilter.java:43 | A header lookup is null exactly when the request has no header of that name, and otherwise returns its value. |
| CorrelationFilter.ResolveCorrelationId | src/main/java/com/controllerapp/audit/CorrelationFilter.java:43-46 | The resolved ID is never blank. A non-null, non-blank header is adopted verbatim. Otherwise the ID is the text of the generated UUID. |
| CorrelationFilter.DoFilter | src/main/java/com/controllerapp/audit/CorrelationFilter.java:37-56 | The chain runs with the MDC mapping `correlationId` to the resolved ID and with the response header `X-Correlation-Id` already set to it. The chain's outcome, normal or thrown, is passed on unchanged. Afterwards `correlationId` is absent from the MDC on either path. Everything else in the MDC is as the chain left it. So when the chain leaves the context alone, the MDC is its old contents minus `correlationId`, and an earlier value under that key is not restored. |
| CorrelationFilter.HttpResponse.SetHeader | src/main/java/com/controllerapp/audit/CorrelationFilter.java:49 | Setting a response header replaces its value and leaves the other headers alone. |
| Uuid.UuidToString | src/main/java/com/controllerapp/audit/CorrelationFilter.java:45 | A generated ID's text is 36 characters long: lower-case hex digits with hyphens at positions 8, 13, 18 and 23. It is therefore never blank. |
| Mdc.MdcContext.Get | src/main/java/com/controllerapp/audit/ServiceAuditService.java:46 | MDC lookup returns the bound value, or null exactly when the key is unbound. |
| Mdc.MdcContext.Put | src/main/java/com/controllerapp/audit/CorrelationFilter.java:48 | Binding a key overwrites any earlier value and changes nothing else. |
| Mdc.MdcContext.Remove | src/main/java/com/controllerapp/audit/CorrelationFilter.java:54 | Removing a key drops it and changes nothing else. |
| JwtRoleConverter.MapRoles | src/main/java/com/controllerapp/security/JwtRoleConverter.java:40-42 | Mapping the cast list succeeds exactly when every element is a string or null; any other element fails the implicit cast to `String` in the mapping function. The result then has the list's length, and element i is `ROLE_` followed by role i, with a null role written as `null`. |
| JwtRoleConverter.Convert | src/main/java/com/controllerapp/security/JwtRoleConverter.java:30-43 | A missing or null claim gives no authorities. A claim that is a single string or any other non-list value fails the cast. Every granted authority starts with `ROLE_`. |
| JwtRoleConverter.ConvertStringRoles | src/main/java/com/controllerapp/security/JwtRoleConverter.java:40-42 | For a list of strings, conversion succeeds with the same length, and element i is `ROLE_` + roles[i]. Order and duplicates are kept. |
| JwtRoleConverter.RoleGrantedIffListed | src/main/java/com/controllerapp/security/JwtRoleConverter.java:17-19 | `ROLE_` + r is granted if and only if r is in the roles list, because prefixing is injective. |
| JwtRoleConverter.ConvertExamples | src/main/java/com/controllerapp/security/JwtRoleConverter.java:17-22 | [ADMINAPP_SERVICE, RHAPP_SERVICE] gives [ROLE_ADMINAPP_SERVICE, ROLE_RHAPP_SERVICE]. A token without roles gives no authorities. |
| JwtRoleConverter.MalformedClaimFails | src/main/java/com/controllerapp/security/JwtRoleConverter.java:37-42 | A bare string claim fails the cast to `List`. A list containing a non-string fails the cast to `String` as it is prefixed. Neither is treated as empty; both fail with ClassCastException. |
| AudienceValidation.Validate | src/main/java/com/controllerapp/security/AudienceValidator.java:27-32 | Validation succeeds if and only if the audience list is present and contains the expected audience by exact string equality. Every failure carries exactly the one constant error. |
| AudienceValidation.MissingAudienceFails | src/main/java/com/controllerapp/security/AudienceValidator.java:28-31 | A token without an audience list always fails, with the constant error. |
| AudienceValidation.FailureIsConstant | src/main/java/com/controllerapp/security/AudienceValidator.java:14-18 | Any two rejected tokens get the identical result, so the error does not depend on the token's audiences. |
| AudienceValidation.SuccessMonotone | src/main/java/com/controllerapp/security/AudienceValidator.java:28 | A list that contains every audience of a passing list also passes, whatever its order or extra entries. |
| AudienceValidation.ValidateExamples | src/main/java/com/controllerapp/security/AudienceValidator.java:20-32 | A validator built for `controller-api` accepts [controller-api, other], and rejects [other] and a missing list with the constant error. |

`AudienceValidator` is a datatype: the expected audience is fixed when the
value is constructed (src/main/java/com/controllerapp/security/AudienceValidator.java:20-24), and `Validate` is a
function, so it changes no state.

## Left out

- The MDC's thread-locality is left out. The MDC is one map owned by one context object. Isolation between concurrent requests and leakage across pooled threads are concurrency properties this model cannot express.
- `UUID.randomUUID` is left out. Its 128 random bits are a parameter of `DoFilter` and are not constrained. The version-4 and variant bits and any uniqueness claim are not modelled. Only the text form `UUID.toString` is.
- The clock is left out. `Instant.now()` is the parameter `now`.
- `Instant.toString` is left out. It is the parameter `render`; the ISO-8601 text form is not modelled.
- The servlet casts of request and response are left out.
- HTTP header-name case-insensitivity and multi-valued headers are left out. A request's headers are a map from exact name to first value.
- Token parsing, signature checking and the claim-to-string conversion of `getClaimAsString` are left out. Claims are given as `Option<string>`, `Option<seq<string>>` and a small JSON value type for `roles`.
- SLF4J is left out apart from plain `{}` substitution. Its log levels, appenders, the `\{}` escape of placeholders and array formatting are not modelled. A write to the sink cannot fail in the model. The source has no catch around it either, so there is no best-effort behaviour to model.
- CorrelationFilter.DoFilter: the chain is a function of the MDC contents and the response headers. It cannot observe or change other state, such as the request body or response status.
- Both controllers (`AdminInternalController`, `RequestHistoryInternalController`) and the framework's evaluation of `hasRole` are left out. They are Spring routing and annotation wiring around one extract-then-audit call.
- A null `expectedAudience`, and null entries in the audience list, are left out. Both are non-null strings in the model.
