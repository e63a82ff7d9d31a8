# Girlfriend application form and mail endpoint, modelled in Dafny

This project models the decision and formatting logic of a small web
application. A React form collects answers to a novelty "girlfriend
application". An Express endpoint, `POST /api/apply`, validates the submitted
record, renders it as text, and mails it. The model covers:

- the JavaScript values the record can hold, and truthiness (`js_values.dfy`);
- the string operations the server relies on: `includes`, the global
  `\n` → `<br>` replacement and first-letter capitalization (`text.dfy`);
- `validateEnvVars`, the CORS allow-list and the CORS `origin` callback
  (`config.dfy`);
- `formatApplicationData`: zodiac emoji and label, fallbacks, enumerated
  labels, yes/no phrases and the template (`format.dfy`);
- the `/api/apply` handler. It checks the required fields first, then the
  mail configuration, then renders and sends the mail, and finally
  classifies any send error (`handler.dfy`);
- the state logic of the form component: initial record, `handleChange`,
  the `submitted` transitions, the submit-enabled predicate and the
  thank-you texts (`form.dfy`).

Everything is pure: immutable datatypes and functions. Inputs that depend on
the environment are explicit parameters:

- the process environment is a `map<string, string>`;
- the mail transport is the outcome it would report (`Delivered` or
  `SendFailed(message)`);
- the clock reading that goes into the mail is an opaque string;
- the result of the browser's `fetch` is a `FetchOutcome`.

A request body is a `map<string, JsValue>`. `JsValue` is a string, an
integral number, a boolean, `null` or `undefined` (a missing key).

Some behaviour of the code is worth stating plainly:
- the 400 answer is one fixed message, `Missing required fields: name, age, or terms not accepted`, whichever field is missing;
- three fields are required: `name`, `age` and `terms`;
- an unknown `showerSingingReaction` or `idealDate` falls through to the last label and is accepted;
- a send error is classified by substring matching on its message text.

## Model

| member | source | states |
|---|---|---|
| `JsValues.Truthy` | server/index.js:116 | a value is falsy iff it is `""`, `0`, `false`, `null` or `undefined`; the same test decides every `\|\|`, `?:` and `!` of the core |
| `JsValues.Or` | server/index.js:77 | `a \|\| b` is truthy iff either operand is; it is `a` when `a` is truthy and `b` when `a` is falsy |
| `JsValues.OrAssociative` | src/pages/applyForm.js:63 | a chain `a \|\| b \|\| c` gives the same value however it is grouped |
| `JsValues.ToJsString` | server/index.js:75-82 | interpolating a value writes a string as itself, a number as `IntToDecimal` writes it (canonical decimal, no leading zero, `0` for zero), booleans as `true`/`false`, `null` as `null` and a missing field as `undefined` |
| `JsValues.IntToDecimal` | server/index.js:75-82 | an integer is written as decimal digits with a leading `-` exactly when negative, with no leading zero except for `0` itself, and reading the digits back yields the integer (for the safe-integer range, see Left out) |
| `JsValues.CanonicalDecimalUnique` | server/index.js:75-82 | a digit string without a superfluous leading zero is exactly the one written for the number it denotes, so the contract of `IntToDecimal` determines its result |
| `JsValues.DecimalRoundTrip` | server/index.js:75-82 | decimal rendering of a natural number round-trips through digit parsing |
| `Text.Includes` | server/index.js:155-157 | `s.includes(sub)` is true iff `sub` occurs at some position of `s` |
| `Text.ReplaceNewlines` | server/index.js:139 | each newline becomes `<br>` and every other character stays: a one-character text maps to `<br>` or to itself, the result holds no newline, and a text without newlines is unchanged |
| `Text.ReplaceNewlinesAppend` | server/index.js:139 | the replacement distributes over concatenation, so together with the one-character case it fixes the HTML body of every text |
| `Text.RestoreAfterReplace` | server/index.js:139 | when the text holds no literal `<br>`, turning every `<br>` of the HTML body back into a newline recovers the text exactly |
| `Text.Capitalize` | server/index.js:78 | capitalizing keeps the length and every character after the first, and the first character becomes its upper-case form, which is never a lower-case ASCII letter (only ASCII letters are upper-cased, see Left out) |
| `Text.DecapitalizeRecovers` | server/index.js:78 | a name that starts with a lower-case ASCII letter, like every sign name, is recovered by lower-casing the first character of its capitalized form |
| `Text.UpperChar` | server/index.js:78 | `toUpperCase` maps `a`–`z` to `A`–`Z` and leaves other characters alone |
| `Text.CapitalizeIdempotent` | server/index.js:78 | capitalizing an already capitalized sign name changes nothing |
| `Config.MissingKeys` | server/index.js:41-42 | the filtered list holds exactly the required keys that are unset, empty or contain `your-` |
| `Config.ValidateEnvVars` | server/index.js:40-50 | validation succeeds iff each of `EMAIL_USER`, `EMAIL_PASSWORD`, `RECIPIENT_EMAIL` is set, non-empty and free of `your-` |
| `Config.ValidateEnvVarsByKey` | server/index.js:41-49 | the same condition spelled out for the three keys one by one |
| `Config.PlaceholderFailsValidation` | server/index.js:42 | a required setting containing `your-` anywhere fails validation, whatever the others hold |
| `Config.FilterPresent` | server/index.js:17 | `.filter(Boolean)` keeps exactly the defined, non-empty entries |
| `Config.AllowedOrigins` | server/index.js:11-17 | the allow-list never contains an empty entry and holds exactly the three fixed origins plus a non-empty `FRONTEND_URL` |
| `Config.IndexOf` | server/index.js:24 | `indexOf` is -1 iff the origin is absent, and otherwise is the first index holding it |
| `Config.CorsOrigin` | server/index.js:20-29 | a request is allowed iff its origin is missing or empty, is in the allow-list, or `NODE_ENV` is `development`; otherwise it is refused with `Not allowed by CORS` |
| `Config.FixedOriginsAllowed` | server/index.js:11-25 | the fixed origins are accepted under every environment |
| `Config.UnknownOriginDenied` | server/index.js:20-28 | outside development, an origin that is neither fixed nor `FRONTEND_URL` is refused |
| `Format.ZodiacEmojiAsWritten` | server/index.js:65-78 | the lookup as written returns the table's emoji for a sign, and a non-empty text for inherited `Object.prototype` names |
| `Format.InheritedNameRendersEmoji` | server/index.js:65-78 | zodiac `constructor` is not a sign, yet the lookup as written renders a function's text as its emoji |
| `Format.ZodiacEmoji` | server/index.js:65-78 | the emoji is non-empty iff the zodiac names one of the twelve signs, and is then that sign's symbol |
| `Format.ZodiacText` | server/index.js:78 | a falsy zodiac renders an empty emoji and `Not selected`; a non-empty string renders its emoji (empty when unknown) and its capitalized name; a truthy non-string throws the `charAt` TypeError |
| `Format.LeoRendering` | server/index.js:65-78 | zodiac `leo` renders as `♌ Leo` |
| `Format.InstagramText` | server/index.js:77 | a missing or falsy Instagram handle renders `Not provided`, otherwise the handle itself |
| `Format.ShowerLabel` | server/index.js:87-91 | `join` and `record` get their labels, and every other value, missing included, gets "Pretend to hear nothing" |
| `Format.IdealDateLabel` | server/index.js:92-96 | `netflix` and `roadtrip` get their labels, and every other value gets "Fancy dinner" |
| `Format.YesNo` | server/index.js:83-84 | each yes/no answer renders its ✅ phrase iff the answer is truthy and its ❌ phrase iff it is falsy; lines 99 and 102 use the same choice |
| `Format.FormatApplicationData` | server/index.js:71-107 | rendering throws iff the zodiac is truthy but not a string, and then with the `charAt` TypeError message; the lines of a rendered text are stated by the four `Shown` lemmas below |
| `Format.PersonalDetailsShown` | server/index.js:74-78 | the rendered text contains the name, age, Instagram and zodiac lines with their display values |
| `Format.SkillsShown` | server/index.js:80-84 | the rendered text contains both rating lines and both yes/no skill lines |
| `Format.ScenariosShown` | server/index.js:86-96 | the rendered text contains both scenario lines with their labels |
| `Format.ReferencesAndTermsShown` | server/index.js:98-106 | the rendered text contains the pet approval and terms lines with their phrases, and the unbulleted `📧 Submitted on:` line with the submission time |
| `ApplyHandler.HasRequiredFields` | server/index.js:116 | the required-field check passes iff none of `name`, `age`, `terms` is falsy |
| `ApplyHandler.ClassifySendError` | server/index.js:154-159 | text containing `Invalid login` gets the App Password message even when it also contains `ENOTFOUND`; otherwise `ENOTFOUND` gets the connectivity message; otherwise the generic message |
| `ApplyHandler.SendErrorResponse` | server/index.js:161-164 | a failed send answers 500 with the classified message and the raw error text as `details` |
| `ApplyHandler.ComposeMail` | server/index.js:134-140 | the mail goes from `EMAIL_USER` to `RECIPIENT_EMAIL`, with subject = fixed prefix + name, the rendered text, and as HTML body the text with every newline replaced by `<br>`, which holds no newline and gives back the text when the text holds no `<br>` |
| `ApplyHandler.HandleApply` | server/index.js:111-165 | a falsy name, age or terms gets 400 with the fixed message and no send; otherwise a bad configuration gets 500 and no send; a mail is handed to the transport iff fields, configuration and rendering all succeed; status is 200 iff that mail is delivered |
| `ApplyHandler.ValidationPrecedesConfig` | server/index.js:115-128 | an incomplete record gets the same 400 under any configuration, clock and transport |
| `ApplyHandler.BadConfigNeverSends` | server/index.js:122-128 | a complete record under a bad configuration reaches no transport and gets `Email service not configured` |
| `ApplyHandler.AuthFailureTakesPriority` | server/index.js:154-159 | an error text holding both `Invalid login` and `ENOTFOUND`, in either order, is classified as an authentication failure |
| `ApplyHandler.TypeErrorIsGeneric` | server/index.js:151-159 | the TypeError thrown while rendering is answered with the generic message |
| `ApplyHandler.AuthMessageAdvisesAppPassword` | server/index.js:156 | the authentication message contains `App Password` |
| `ApplyHandler.InvalidCredentialsAdviseAppPassword` | server/index.js:151-164 | a rejected login answers 500 with the App Password message and the raw error as details |
| `ApplyHandler.SampleEnvIsValid` | server/index.js:40-50 | a sample configuration with real-looking values for the three keys passes validation |
| `ApplyHandler.DeliveredApplicationSucceeds` | server/index.js:130-149 | a complete record with a string or absent zodiac, under a valid configuration and a delivering transport, gets 200 with `Application submitted and email sent!` |
| `ApplyHandler.CompleteApplicationDelivered` | server/index.js:116-149 | the record `Alex, 24, terms accepted` gets 200 and a mail whose subject names Alex |
| `ApplyHandler.EmptyNameRejected` | server/index.js:116-120 | an empty name with age and terms present gets 400 with the missing-fields message and no send |
| `ApplyForm.InitialDefaults` | src/pages/applyForm.js:5-20 | the initial record has ratings 3, food sharing and weirdness true, pet approval and terms false, `join` and `netflix`, and empty name, age, Instagram and zodiac; `submitted` starts false |
| `ApplyForm.HandleChange` | src/pages/applyForm.js:22-28 | a change sets the named field to `checked` for a checkbox and to `value` otherwise, adds no other key and leaves every other field unchanged |
| `ApplyForm.LastChangeWins` | src/pages/applyForm.js:22-28 | after any run of changes, each field holds what the last change naming it stored, or its earlier value if no change named it |
| `ApplyForm.SubmitDisabled` | src/pages/applyForm.js:281 | the submit button is disabled iff `terms` is falsy |
| `ApplyForm.TermsCheckboxControlsSubmit` | src/pages/applyForm.js:270-283 | after the terms checkbox changes, the submit button is disabled iff the box is unchecked |
| `ApplyForm.HandleSubmit` | src/pages/applyForm.js:44-56 | only an ok response whose body parses to a JSON value other than `null` sets `submitted`; a non-ok response, a body that does not parse, a `null` body (where `result.message` throws) or a thrown error leaves the state unchanged; answers are never altered |
| `ApplyForm.NullBodyLeavesFormOpen` | src/pages/applyForm.js:45-55 | an ok response whose body is `null` throws at `result.message`, so the form stays unsubmitted with its answers unchanged |
| `ApplyForm.SubmitAnother` | src/pages/applyForm.js:66 | the reset button clears `submitted` and keeps every answer |
| `ApplyForm.SubmitThenResetKeepsAnswers` | src/pages/applyForm.js:44-66 | a successful submission followed by the reset button returns to the exact same form state |
| `ApplyForm.ThankYouName` | src/pages/applyForm.js:63 | the thank-you name is always truthy: `nickname` if truthy, else `name` if truthy, else `Applicant` |
| `ApplyForm.PetNote` | src/pages/applyForm.js:65 | the pet line is the "noted" text iff `petApproval` is truthy |
| `ApplyForm.FreshFormRejected` | src/pages/applyForm.js:5-18 | a fresh form's submit button is disabled, and its record would get 400 with no send from the server |
| `ApplyForm.FilledFormPassesValidation` | src/pages/applyForm.js:22-27 | typing a name and age and checking the terms box yields a record that passes the server's required-field check and enables the button, whatever other fields change afterwards |

## Left out

- The nodemailer transport and SMTP. `sendMail` is replaced by the outcome it would report. Creating the transporter is not modelled.
- Express routing, middleware wiring, `express.json`, `express.static`, the production catch-all `sendFile`, `app.listen` and the start-up configuration warning. These are I/O plumbing.
- The `/api/health` handler. It answers a fixed status text, the environment tag (`development` when `NODE_ENV` is unset) and the current time, none of which the rest of the core uses.
- Loading `.env` with dotenv. The environment is an explicit map parameter.
- `new Date().toLocaleString()`. The formatted time is the `submittedAt` string parameter.
- Logging (`console.*`), `alert`, `JSON.stringify`, `response.json()` and the choice of backend URL. These are I/O or browser behaviour. How the response body parsed is the `ParsedBody` of a `FetchOutcome`.
- React rendering, JSX markup and CSS. The browser's native `required` and `min` constraints are not code of the component.
- JavaScript objects and arrays as field values, and non-integral numbers, `NaN` and `Infinity`. `JsValue` has only strings, integers, booleans, `null` and `undefined`.
- The model treats the client's serialized record as arriving unchanged at the server. This holds for the value kinds above.
- Errors thrown by `sendMail` that are not `Error` objects. The model assumes every failure carries a message string.
- Text.Capitalize: upper-cases only ASCII `a`–`z`, so in the model a name starting with any other character comes back unchanged. JavaScript's `toUpperCase` also upper-cases other letters (`élan` becomes `Élan`). This does not matter for the twelve sign names.
- Text.UpperChar: upper-cases only the ASCII letters `a`–`z`. JavaScript also upper-cases other Unicode letters, sometimes into two characters (`ß` becomes `SS`). All twelve sign names are ASCII.
- The HTML body is built by a recursive replacement of `\n` rather than a regular-expression engine. For the pattern `/\n/g` the two agree.
- JsValues.IntToDecimal: the decimal form matches JavaScript's `String(n)` only for integers with magnitude below 2^53. Larger numbers arrive rounded by JSON parsing, and from 10^21 on JavaScript writes an exponent (`1e+21`). `JNum` is meant for that safe range.
- Format.ZodiacText: it uses the corrected emoji lookup `Format.ZodiacEmoji`, and so do `Format.FormatApplicationData` and `ApplyHandler.HandleApply`. For a zodiac that names an inherited `Object.prototype` member, the mail these members describe therefore differs from the one the code sends; that behaviour is modelled separately by `Format.ZodiacEmojiAsWritten` (see Findings).
- Emoji are opaque string constants copied from the template.

## Findings

| source | as written | input that shows it | evidently intended | confidence | as-written member | corrected member |
|---|---|---|---|---|---|---|
| server/index.js:65-78 | `zodiacEmojis[data.zodiac] \|\| ''` looks the key up on a plain object literal, so it also finds members inherited from `Object.prototype` | zodiac `constructor` (also `toString`, `valueOf`, `__proto__`, …) renders `function Object() { [native code] }` in place of an emoji, then ` Constructor` | an unknown zodiac renders an empty emoji, as `\|\| ''` shows | not executed; follows from JavaScript property lookup | `Format.ZodiacEmojiAsWritten`, `Format.InheritedNameRendersEmoji` | `Format.ZodiacEmoji` (used by `Format.ZodiacText`) |
