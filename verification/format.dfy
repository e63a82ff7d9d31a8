/**
  `formatApplicationData`: the plain-text mail body rendered from a loosely
  typed application record, with its zodiac emoji table, the capitalized sign
  name, the fallbacks for absent answers and the display labels of the
  enumerated and yes/no answers.
 */
module Format {
  import opened Wrappers
  import opened JsValues
  import opened Text

  /** The own properties of the `zodiacEmojis` object literal. */
  const ZodiacEmojis: map<string, string> := map[
    "aries" := "♈", "taurus" := "♉", "gemini" := "♊", "cancer" := "♋",
    "leo" := "♌", "virgo" := "♍", "libra" := "♎", "scorpio" := "♏",
    "sagittarius" := "♐", "capricorn" := "♑", "aquarius" := "♒", "pisces" := "♓"
  ]

  /**
    What `${obj[key]}` renders for the names every object literal inherits
    from `Object.prototype`: the text of a built-in function, or of the
    prototype object itself for `__proto__`.
   */
  const ObjectPrototypeRendering: map<string, string> := map[
    "constructor" := "function Object() { [native code] }",
    "hasOwnProperty" := "function hasOwnProperty() { [native code] }",
    "isPrototypeOf" := "function isPrototypeOf() { [native code] }",
    "propertyIsEnumerable" := "function propertyIsEnumerable() { [native code] }",
    "toString" := "function toString() { [native code] }",
    "toLocaleString" := "function toLocaleString() { [native code] }",
    "valueOf" := "function valueOf() { [native code] }",
    "__defineGetter__" := "function __defineGetter__() { [native code] }",
    "__defineSetter__" := "function __defineSetter__() { [native code] }",
    "__lookupGetter__" := "function __lookupGetter__() { [native code] }",
    "__lookupSetter__" := "function __lookupSetter__() { [native code] }",
    "__proto__" := "[object Object]"
  ]

  /**
    `zodiacEmojis[key] || ''` as the code evaluates it: the lookup also finds
    the inherited `Object.prototype` members, which are truthy.
   */
  function ZodiacEmojiAsWritten(key: string): (e: string)
    ensures key in ZodiacEmojis ==> e == ZodiacEmojis[key]
    ensures key in ObjectPrototypeRendering && key !in ZodiacEmojis ==> e != ""
    ensures key !in ZodiacEmojis && key !in ObjectPrototypeRendering ==> e == ""
  {
    if key in ZodiacEmojis then ZodiacEmojis[key]
    else if key in ObjectPrototypeRendering then ObjectPrototypeRendering[key]
    else ""
  }

  /** A sign name that is not a sign still renders a non-empty emoji. */
  lemma InheritedNameRendersEmoji()
    ensures "constructor" !in ZodiacEmojis
    ensures ZodiacEmojiAsWritten("constructor") == "function Object() { [native code] }"
  {
  }

  /** `zodiacEmojis[key] || ''` restricted to the table's own entries. */
  function ZodiacEmoji(key: string): (e: string)
    ensures e != "" <==> key in ZodiacEmojis
    ensures key in ZodiacEmojis ==> e == ZodiacEmojis[key]
  {
    if key in ZodiacEmojis then ZodiacEmojis[key] else ""
  }

  /** No falsy value converts to the name of a sign. */
  lemma FalsyKeyHasNoEmoji(zodiac: JsValue)
    ensures !Truthy(zodiac) ==> ToJsString(zodiac) !in ZodiacEmojis
  {
    if zodiac.JNum? && zodiac.n == 0 {
      assert ToJsString(zodiac) == "0";
    }
  }

  /** The message of the `TypeError` thrown when the zodiac is truthy but not a string. */
  const CharAtTypeError: string := "data.zodiac.charAt is not a function"

  const NotSelected: string := "Not selected"

  /**
    The zodiac part of the `Zodiac Sign` line: emoji, a space, and the sign
    name with its first letter upper-cased, or `Not selected` when no sign
    was chosen.
   */
  function ZodiacText(zodiac: JsValue): (r: Result<string, string>)
    ensures !Truthy(zodiac) ==> r == Ok(" " + NotSelected)
    ensures Truthy(zodiac) && !zodiac.JStr? ==> r == Err(CharAtTypeError)
    ensures zodiac.JStr? && zodiac.s != "" ==>
      && r.Ok?
      && r.value == ZodiacEmoji(zodiac.s) + " " + Capitalize(zodiac.s)
      && (zodiac.s !in ZodiacEmojis ==> r.value == " " + Capitalize(zodiac.s))
  {
    var emoji := ZodiacEmoji(ToJsString(zodiac));
    if !Truthy(zodiac) then
      FalsyKeyHasNoEmoji(zodiac);
      assert emoji + " " == " ";
      Ok(emoji + " " + NotSelected)
    else if zodiac.JStr? then Ok(emoji + " " + Capitalize(zodiac.s))
    else Err(CharAtTypeError)
  }

  /** The sign `leo` renders as its symbol and `Leo`. */
  lemma LeoRendering()
    ensures ZodiacText(JStr("leo")) == Ok("♌ Leo")
  {
    assert ZodiacEmoji("leo") == "♌";
    assert UpperChar('l') == 'L';
    assert Capitalize("leo") == "Leo";
    assert "♌" + " " + "Leo" == "♌ Leo";
  }

  const NotProvided: string := "Not provided"

  /** `data.instagram || 'Not provided'`, as the template renders it. */
  function InstagramText(instagram: JsValue): (r: string)
    ensures !Truthy(instagram) ==> r == NotProvided
    ensures Truthy(instagram) ==> r == ToJsString(instagram)
  {
    ToJsString(Or(instagram, JStr(NotProvided)))
  }

  const ShowerJoin: string := "🎵 Join in harmoniously"
  const ShowerRecord: string := "📱 Record and blackmail later"
  const ShowerIgnore: string := "🤐 Pretend to hear nothing"

  /** The `showerSingingReaction` label; anything but `join` and `record` falls through to the last. */
  function ShowerLabel(reaction: JsValue): (r: string)
    ensures r == ShowerJoin <==> reaction == JStr("join")
    ensures r == ShowerRecord <==> reaction == JStr("record")
    ensures r == ShowerIgnore <==> reaction != JStr("join") && reaction != JStr("record")
  {
    if reaction == JStr("join") then ShowerJoin
    else if reaction == JStr("record") then ShowerRecord
    else ShowerIgnore
  }

  const DateNetflix: string := "🍕 Netflix + takeout"
  const DateRoadtrip: string := "🚗 Spontaneous road trip"
  const DateFancy: string := "🍽️ Fancy dinner (with pajamas underneath)"

  /** The `idealDate` label; anything but `netflix` and `roadtrip` falls through to the last. */
  function IdealDateLabel(date: JsValue): (r: string)
    ensures r == DateNetflix <==> date == JStr("netflix")
    ensures r == DateRoadtrip <==> date == JStr("roadtrip")
    ensures r == DateFancy <==> date != JStr("netflix") && date != JStr("roadtrip")
  {
    if date == JStr("netflix") then DateNetflix
    else if date == JStr("roadtrip") then DateRoadtrip
    else DateFancy
  }

  /** `flag ? yes : no`, by truthiness. */
  function YesNo(flag: JsValue, yes: string, no: string): (r: string)
    requires yes != no
    ensures r == yes <==> Truthy(flag)
    ensures r == no <==> !Truthy(flag)
  {
    if Truthy(flag) then yes else no
  }

  const FoodYes: string := "✅ Yes (keeper!)"
  const FoodNo: string := "❌ No (red flag?)"
  const WeirdYes: string := "✅ Yes (perfect!)"
  const WeirdNo: string := "❌ No (might be a problem)"
  const PetYes: string := "✅ Yes (dogs votes count double!)"
  const PetNo: string := "❌ No pets approval"
  const TermsYes: string := "✅ Accepted all conditions"
  const TermsNo: string := "❌ Not accepted"

  /** One bulleted `caption: value` line of the template. */
  function FieldLine(caption: string, value: string): string {
    "    • " + caption + ": " + value + "\n"
  }

  const Header: seq<string> := ["\n", "    🎉 NEW GIRLFRIEND APPLICATION RECEIVED! 🎉\n", "\n"]

  function PersonalDetails(data: Record, zodiacText: string): seq<string> {
    [ "    📝 PERSONAL DETAILS:\n",
      FieldLine("Name", ToJsString(Get(data, "name"))),
      FieldLine("Age", ToJsString(Get(data, "age"))),
      FieldLine("Instagram", InstagramText(Get(data, "instagram"))),
      FieldLine("Zodiac Sign", zodiacText),
      "\n" ]
  }

  function Skills(data: Record): seq<string> {
    [ "    ⭐ SKILLS & QUALIFICATIONS:\n",
      FieldLine("Cuddling Strength", ToJsString(Get(data, "cuddleRating")) + "/5 ⭐"),
      FieldLine("Pun Tolerance", ToJsString(Get(data, "punTolerance")) + "/5 😂"),
      FieldLine("Willing to Share Food", YesNo(Get(data, "sharesFood"), FoodYes, FoodNo)),
      FieldLine("Can Handle Weirdness", YesNo(Get(data, "handlesWeirdness"), WeirdYes, WeirdNo)),
      "\n" ]
  }

  function Scenarios(data: Record): seq<string> {
    [ "    💑 SCENARIO RESPONSES:\n",
      FieldLine("Shower Singing Reaction", ShowerLabel(Get(data, "showerSingingReaction"))),
      FieldLine("Ideal Date", IdealDateLabel(Get(data, "idealDate"))),
      "\n" ]
  }

  function References(data: Record): seq<string> {
    [ "    🐾 REFERENCES:\n",
      FieldLine("Pet Approval", YesNo(Get(data, "petApproval"), PetYes, PetNo)),
      "\n" ]
  }

  function Terms(data: Record): seq<string> {
    [ "    📜 TERMS & CONDITIONS:\n",
      FieldLine("Agreed to Terms", YesNo(Get(data, "terms"), TermsYes, TermsNo)),
      "\n" ]
  }

  /** The unbulleted closing line carrying the submission time. */
  function SubmittedLine(submittedAt: string): string {
    "    📧 Submitted on: " + submittedAt + "\n"
  }

  function Footer(submittedAt: string): seq<string> {
    [ "    ---\n", "\n", SubmittedLine(submittedAt), "  " ]
  }

  /** The template, section by section, once the zodiac part has been rendered. */
  function TemplateSections(data: Record, zodiacText: string, submittedAt: string): seq<string> {
    [ Concat(Header),
      Concat(PersonalDetails(data, zodiacText)),
      Concat(Skills(data)),
      Concat(Scenarios(data)),
      Concat(References(data)),
      Concat(Terms(data)),
      Concat(Footer(submittedAt)) ]
  }

  function Concat(parts: seq<string>): string {
    if parts == [] then "" else parts[0] + Concat(parts[1..])
  }

  /** Every part of a concatenation occurs in it. */
  lemma {:induction false} ConcatContainsPart(parts: seq<string>, k: nat)
    requires k < |parts|
    ensures Contains(Concat(parts), parts[k])
    decreases |parts|
  {
    if k == 0 {
      ContainsInMiddle("", parts[0], Concat(parts[1..]));
      assert "" + parts[0] + Concat(parts[1..]) == Concat(parts);
    } else {
      ConcatContainsPart(parts[1..], k - 1);
      var s := Concat(parts);
      assert s[|parts[0]|..] == Concat(parts[1..]);
      ContainsSuffix(s, parts[k], |parts[0]|);
    }
  }

  /**
    `formatApplicationData(data)`, with the clock reading `submittedAt`
    passed in. It throws exactly when the zodiac is truthy but not a string.
   */
  function FormatApplicationData(data: Record, submittedAt: string): (r: Result<string, string>)
    ensures r.Err? <==> Truthy(Get(data, "zodiac")) && !Get(data, "zodiac").JStr?
    ensures r.Err? ==> r.error == CharAtTypeError
  {
    match ZodiacText(Get(data, "zodiac"))
    case Err(e) => Err(e)
    case Ok(z) =>
      Ok(Concat(TemplateSections(data, z, submittedAt)))
  }

  /** A rendered text is the concatenation of the template's sections. */
  lemma RenderedSections(data: Record, submittedAt: string)
    requires FormatApplicationData(data, submittedAt).Ok?
    ensures ZodiacText(Get(data, "zodiac")).Ok?
    ensures FormatApplicationData(data, submittedAt).value
      == Concat(TemplateSections(data, ZodiacText(Get(data, "zodiac")).value, submittedAt))
  {
  }

  /** Line `k` of a section occurs in the concatenation of all sections. */
  lemma SectionLineShown(sections: seq<string>, section: seq<string>, n: nat, k: nat)
    requires n < |sections| && sections[n] == Concat(section)
    requires k < |section|
    ensures Contains(Concat(sections), section[k])
  {
    ConcatContainsPart(section, k);
    ConcatContainsPart(sections, n);
    ContainsTransitive(Concat(sections), Concat(section), section[k]);
  }

  /** The personal details section shows name, age, Instagram handle and zodiac sign. */
  lemma PersonalDetailsShown(data: Record, submittedAt: string)
    requires FormatApplicationData(data, submittedAt).Ok?
    ensures Contains(FormatApplicationData(data, submittedAt).value, FieldLine("Name", ToJsString(Get(data, "name"))))
    ensures Contains(FormatApplicationData(data, submittedAt).value, FieldLine("Age", ToJsString(Get(data, "age"))))
    ensures Contains(FormatApplicationData(data, submittedAt).value, FieldLine("Instagram", InstagramText(Get(data, "instagram"))))
    ensures Contains(FormatApplicationData(data, submittedAt).value, FieldLine("Zodiac Sign", ZodiacText(Get(data, "zodiac")).value))
  {
    RenderedSections(data, submittedAt);
    var sections := TemplateSections(data, ZodiacText(Get(data, "zodiac")).value, submittedAt);
    SectionLineShown(sections, PersonalDetails(data, ZodiacText(Get(data, "zodiac")).value), 1, 1);
    SectionLineShown(sections, PersonalDetails(data, ZodiacText(Get(data, "zodiac")).value), 1, 2);
    SectionLineShown(sections, PersonalDetails(data, ZodiacText(Get(data, "zodiac")).value), 1, 3);
    SectionLineShown(sections, PersonalDetails(data, ZodiacText(Get(data, "zodiac")).value), 1, 4);
  }

  /** The skills section shows both ratings and both yes/no answers. */
  lemma SkillsShown(data: Record, submittedAt: string)
    requires FormatApplicationData(data, submittedAt).Ok?
    ensures Contains(FormatApplicationData(data, submittedAt).value, FieldLine("Cuddling Strength", ToJsString(Get(data, "cuddleRating")) + "/5 ⭐"))
    ensures Contains(FormatApplicationData(data, submittedAt).value, FieldLine("Pun Tolerance", ToJsString(Get(data, "punTolerance")) + "/5 😂"))
    ensures Contains(FormatApplicationData(data, submittedAt).value, FieldLine("Willing to Share Food", YesNo(Get(data, "sharesFood"), FoodYes, FoodNo)))
    ensures Contains(FormatApplicationData(data, submittedAt).value, FieldLine("Can Handle Weirdness", YesNo(Get(data, "handlesWeirdness"), WeirdYes, WeirdNo)))
  {
    RenderedSections(data, submittedAt);
    var sections := TemplateSections(data, ZodiacText(Get(data, "zodiac")).value, submittedAt);
    SectionLineShown(sections, Skills(data), 2, 1);
    SectionLineShown(sections, Skills(data), 2, 2);
    SectionLineShown(sections, Skills(data), 2, 3);
    SectionLineShown(sections, Skills(data), 2, 4);
  }

  /** The scenario section shows both scenario answers by their labels. */
  lemma ScenariosShown(data: Record, submittedAt: string)
    requires FormatApplicationData(data, submittedAt).Ok?
    ensures Contains(FormatApplicationData(data, submittedAt).value, FieldLine("Shower Singing Reaction", ShowerLabel(Get(data, "showerSingingReaction"))))
    ensures Contains(FormatApplicationData(data, submittedAt).value, FieldLine("Ideal Date", IdealDateLabel(Get(data, "idealDate"))))
  {
    RenderedSections(data, submittedAt);
    var sections := TemplateSections(data, ZodiacText(Get(data, "zodiac")).value, submittedAt);
    SectionLineShown(sections, Scenarios(data), 3, 1);
    SectionLineShown(sections, Scenarios(data), 3, 2);
  }

  /** The reference and terms sections and the footer show pet approval, terms and submission time. */
  lemma ReferencesAndTermsShown(data: Record, submittedAt: string)
    requires FormatApplicationData(data, submittedAt).Ok?
    ensures Contains(FormatApplicationData(data, submittedAt).value, FieldLine("Pet Approval", YesNo(Get(data, "petApproval"), PetYes, PetNo)))
    ensures Contains(FormatApplicationData(data, submittedAt).value, FieldLine("Agreed to Terms", YesNo(Get(data, "terms"), TermsYes, TermsNo)))
    ensures Contains(FormatApplicationData(data, submittedAt).value, SubmittedLine(submittedAt))
  {
    RenderedSections(data, submittedAt);
    var sections := TemplateSections(data, ZodiacText(Get(data, "zodiac")).value, submittedAt);
    SectionLineShown(sections, References(data), 4, 1);
    SectionLineShown(sections, Terms(data), 5, 1);
    SectionLineShown(sections, Footer(submittedAt), 6, 2);
  }
}
