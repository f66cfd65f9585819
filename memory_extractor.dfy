/**
 * The deterministic parts of the memory extractor
 * (openviking/session/memory_extractor.py): category routing to owner
 * spaces and directories, output-language detection, tool statistics
 * collected from a session, the candidate list built from the model's
 * answer, and the statistics merges for tool and skill memories.
 */
module MemoryExtractor {
  import opened Wrappers

  // ---------------------------------------------------------------------
  // Categories and routing

  datatype MemoryCategory = Profile | Preferences | Entities | Events | Cases | Patterns | Tools | Skills

  /** The enum value of a category. */
  function CategoryName(c: MemoryCategory): string {
    match c
    case Profile => "profile"
    case Preferences => "preferences"
    case Entities => "entities"
    case Events => "events"
    case Cases => "cases"
    case Patterns => "patterns"
    case Tools => "tools"
    case Skills => "skills"
  }

  /**
   * The category of a candidate: a missing category reads as "patterns",
   * and a value that names no category is PATTERNS as well.
   */
  function ParseCategory(s: Option<string>): (c: MemoryCategory)
    ensures (s.Some? && s.value == CategoryName(c)) || c == Patterns
  {
    match s.GetOr("patterns")
    case "profile" => Profile
    case "preferences" => Preferences
    case "entities" => Entities
    case "events" => Events
    case "cases" => Cases
    case "tools" => Tools
    case "skills" => Skills
    case _ => Patterns
  }

  /** Every category's name parses back to that category. */
  lemma ParseCategoryRoundTrip(c: MemoryCategory)
    ensures ParseCategory(Some(CategoryName(c))) == c
  {
  }

  /** A string that names no category is PATTERNS. */
  lemma UnknownCategoryIsPatterns(s: string)
    requires forall c: MemoryCategory :: CategoryName(c) != s
    ensures ParseCategory(Some(s)) == Patterns
  {
    assert CategoryName(Profile) != s && CategoryName(Preferences) != s && CategoryName(Entities) != s;
    assert CategoryName(Events) != s && CategoryName(Cases) != s && CategoryName(Tools) != s && CategoryName(Skills) != s;
  }

  /**
   * `CATEGORY_DIRS`: where each category is stored under a space. Every
   * entry of the table is "memories/" followed by the category's value,
   * except the profile, which is a single file.
   */
  function CategoryDir(c: MemoryCategory): (r: string)
    ensures |r| > 9 && r[..9] == "memories/"
    ensures r[9..] == (if c == Profile then "profile.md" else CategoryName(c))
  {
    if c == Profile then "memories/profile.md" else "memories/" + CategoryName(c)
  }

  /** No two categories share a directory. */
  lemma CategoryDirsDistinct(a: MemoryCategory, b: MemoryCategory)
    requires a != b
    ensures CategoryDir(a) != CategoryDir(b)
  {
    if a != Profile && b != Profile {
      assert CategoryDir(a)[9..] == CategoryName(a) && CategoryDir(b)[9..] == CategoryName(b);
    } else if a == Profile {
      assert CategoryDir(a)[9..] == "profile.md";
      assert CategoryDir(b)[9..] == CategoryName(b);
    } else {
      assert CategoryDir(b)[9..] == "profile.md";
      assert CategoryDir(a)[9..] == CategoryName(a);
    }
  }

  /** `_USER_CATEGORIES`. */
  predicate IsUserCategory(c: MemoryCategory) {
    c in {Profile, Preferences, Entities, Events}
  }

  /** The two space names a request's user has. */
  datatype Spaces = Spaces(userSpace: string, agentSpace: string)

  /** `_get_owner_space`: the user space for the user categories, the agent space for the rest. */
  function OwnerSpace(c: MemoryCategory, sp: Spaces): (r: string)
    ensures c in {Profile, Preferences, Entities, Events} ==> r == sp.userSpace
    ensures c in {Cases, Patterns, Tools, Skills} ==> r == sp.agentSpace
  {
    if IsUserCategory(c) then sp.userSpace else sp.agentSpace
  }

  /** The URI root of a category's owner: its kind of space and that space's name. */
  function OwnerRoot(c: MemoryCategory, sp: Spaces): string {
    (if IsUserCategory(c) then "viking://user/" else "viking://agent/") + OwnerSpace(c, sp)
  }

  /**
   * `create_memory`'s parent URI: the profile lives in the user's
   * memories directory; preferences, entities and events in the user space;
   * everything else in the agent space. Either way it lies in the owner
   * space, in the directory named after the category.
   */
  function ParentUri(c: MemoryCategory, sp: Spaces): (r: string)
    ensures r == OwnerRoot(c, sp) + "/memories" + (if c == Profile then "" else "/" + CategoryName(c))
  {
    if c == Profile then "viking://user/" + sp.userSpace + "/memories"
    else
      var root, n := OwnerRoot(c, sp), CategoryName(c);
      assert CategoryDir(c) == "memories/" + n;
      assert root + "/" + ("memories/" + n) == root + "/memories" + ("/" + n);
      if c in {Preferences, Entities, Events} then "viking://user/" + sp.userSpace + "/" + CategoryDir(c)
      else "viking://agent/" + sp.agentSpace + "/" + CategoryDir(c)
  }

  /** The file of a tool memory: directly under the tools category's parent URI. */
  function ToolMemoryUri(toolName: string, sp: Spaces): (r: string)
    ensures r == ParentUri(Tools, sp) + "/" + toolName + ".md"
  {
    var root := "viking://agent/" + sp.agentSpace;
    assert OwnerRoot(Tools, sp) == root && CategoryName(Tools) == "tools";
    assert ParentUri(Tools, sp) + "/" == root + "/memories" + ("/" + "tools") + "/" == root + "/memories/tools/";
    root + "/memories/tools/" + toolName + ".md"
  }

  /** The file of a skill memory: directly under the skills category's parent URI. */
  function SkillMemoryUri(skillName: string, sp: Spaces): (r: string)
    ensures r == ParentUri(Skills, sp) + "/" + skillName + ".md"
  {
    var root := "viking://agent/" + sp.agentSpace;
    assert OwnerRoot(Skills, sp) == root && CategoryName(Skills) == "skills";
    assert ParentUri(Skills, sp) + "/" == root + "/memories" + ("/" + "skills") + "/" == root + "/memories/skills/";
    root + "/memories/skills/" + skillName + ".md"
  }

  // ---------------------------------------------------------------------
  // Text helpers (ASCII whitespace and case)

  /**
   * The ASCII characters `str.strip()` removes: space, tab, line feed,
   * carriage return, VT, FF and the four separators 0x1C-0x1F.
   */
  const Whitespace: set<char> :=
    {' ', '\t', '\n', '\r', '\U{000B}', '\U{000C}', '\U{001C}', '\U{001D}', '\U{001E}', '\U{001F}'}

  predicate IsSpace(c: char) {
    c in Whitespace
  }

  /** How many whitespace characters `s` starts with. */
  function Leading(s: string): (n: nat)
    ensures n <= |s|
    ensures forall i :: 0 <= i < n ==> IsSpace(s[i])
    ensures n < |s| ==> !IsSpace(s[n])
  {
    if s != [] && IsSpace(s[0]) then 1 + Leading(s[1..]) else 0
  }

  /** Where the trailing whitespace of `s` begins. */
  function Kept(s: string): (n: nat)
    ensures n <= |s|
    ensures forall i :: n <= i < |s| ==> IsSpace(s[i])
    ensures 0 < n ==> !IsSpace(s[n - 1])
  {
    if s != [] && IsSpace(s[|s| - 1]) then Kept(s[..|s| - 1]) else |s|
  }

  /**
   * `str.strip()`: the slice of `s` that starts where its leading
   * whitespace ends and stops where the trailing whitespace of the rest
   * begins.
   */
  function Strip(s: string): (r: string)
    ensures |r| <= |s|
    ensures r == [] || (!IsSpace(r[0]) && !IsSpace(r[|r| - 1]))
  {
    var k := Leading(s);
    s[k..k + Kept(s[k..])]
  }

  /** Everything `str.strip()` removes, before and after the slice it keeps, is whitespace. */
  lemma StripRemovesOnlySpace(s: string)
    ensures var k := Leading(s);
      && k + |Strip(s)| <= |s|
      && Strip(s) == s[k..k + |Strip(s)|]
      && (forall i :: 0 <= i < k ==> IsSpace(s[i]))
      && (forall i :: k + |Strip(s)| <= i < |s| ==> IsSpace(s[i]))
  {
    var k := Leading(s);
    SpaceAfterShift(s, k, Kept(s[k..]));
  }

  lemma SpaceAfterShift(s: string, k: nat, n: nat)
    requires k + n <= |s|
    requires forall i :: n <= i < |s| - k ==> IsSpace(s[k..][i])
    ensures forall i :: k + n <= i < |s| ==> IsSpace(s[i])
  {
    forall i | k + n <= i < |s|
      ensures IsSpace(s[i])
    {
      assert s[i] == s[k..][i - k];
    }
  }

  /** A string with no surrounding whitespace is its own strip. */
  lemma {:induction false} StripOfStripped(s: string)
    requires s == [] || (!IsSpace(s[0]) && !IsSpace(s[|s| - 1]))
    ensures Strip(s) == s
  {
  }

  /** Stripping twice is stripping once. */
  lemma StripIdempotent(s: string)
    ensures Strip(Strip(s)) == Strip(s)
  {
    StripOfStripped(Strip(s));
  }

  /** `str.lower()` on ASCII letters. */
  function Lower(s: string): (r: string)
    ensures |r| == |s|
    ensures forall i :: 0 <= i < |s| ==> if 'A' <= s[i] <= 'Z' then r[i] == s[i] - 'A' + 'a' else r[i] == s[i]
  {
    seq(|s|, i requires 0 <= i < |s| => if 'A' <= s[i] <= 'Z' then s[i] - 'A' + 'a' else s[i])
  }

  /** `sub in s`. */
  predicate Contains(s: string, sub: string)
    decreases |s|
  {
    |sub| <= |s| && (s[..|sub|] == sub || Contains(s[1..], sub))
  }

  // ---------------------------------------------------------------------
  // Output language

  /** A message part: free text or a tool call with its recorded figures. */
  datatype Part =
    | TextPart(text: string)
    | ToolPart(toolName: string, toolStatus: string, durationMs: Option<int>,
               promptTokens: Option<int>, completionTokens: Option<int>)

  /** A session message; an empty `content` stands for a missing one. */
  datatype Message = Message(role: string, content: string, parts: seq<Part>)

  /** The contents of the user messages that have any, in order. */
  function UserContents(ms: seq<Message>): seq<string>
    decreases |ms|
  {
    if ms == [] then []
    else (if ms[0].role == "user" && ms[0].content != "" then [ms[0].content] else []) + UserContents(ms[1..])
  }

  /** The user contents of a concatenation are the user contents of each half. */
  lemma {:induction false} UserContentsAppend(a: seq<Message>, b: seq<Message>)
    ensures UserContents(a + b) == UserContents(a) + UserContents(b)
    decreases |a|
  {
    if a != [] {
      assert (a + b)[0] == a[0];
      assert (a + b)[1..] == a[1..] + b;
      UserContentsAppend(a[1..], b);
    } else {
      assert a + b == b;
    }
  }

  /** `"\n".join(...)`. */
  function Join(xs: seq<string>): string
    decreases |xs|
  {
    if xs == [] then "" else if |xs| == 1 then xs[0] else xs[0] + "\n" + Join(xs[1..])
  }

  /** The number of characters of `s` in a script. */
  function CountIn(s: string, lo: int, hi: int): (n: nat)
    ensures n <= |s|
    decreases |s|
  {
    if s == [] then 0 else (if lo <= s[0] as int <= hi then 1 else 0) + CountIn(s[1..], lo, hi)
  }

  function Hangul(s: string): nat { CountIn(s, 0xAC00, 0xD7AF) }
  function Cyrillic(s: string): nat { CountIn(s, 0x0400, 0x04FF) }
  function Arabic(s: string): nat { CountIn(s, 0x0600, 0x06FF) }
  function Kana(s: string): nat { CountIn(s, 0x3040, 0x30FF) + CountIn(s, 0x31F0, 0x31FF) + CountIn(s, 0xFF66, 0xFF9F) }
  function Han(s: string): nat { CountIn(s, 0x4E00, 0x9FFF) }

  /** The fallback: the stripped argument, or "en" when that is missing or blank. */
  function Fallback(fallbackLanguage: string): (r: string)
    ensures r != []
    ensures Strip(fallbackLanguage) != "" ==> r == Strip(fallbackLanguage)
    ensures Strip(fallbackLanguage) == "" ==> r == "en"
  {
    StripOfStripped("en");
    var f := Strip(if fallbackLanguage != "" then fallbackLanguage else "en");
    if f != "" then f else "en"
  }

  /**
   * The choice on the script counts of non-empty user text: the most
   * frequent of Hangul, Cyrillic and Arabic (ties to the earlier of ko, ru,
   * ar) when any occurs, else "ja" for any kana, else "zh-CN" for any Han
   * character, else the fallback.
   */
  function Dominant(ko: nat, ru: nat, ar: nat, kana: nat, han: nat, fallback: string): (r: string)
    ensures r in {"ko", "ru", "ar", "ja", "zh-CN", fallback}
  {
    var detected := if ko >= ru && ko >= ar then "ko" else if ru >= ar then "ru" else "ar";
    var score := if ko >= ru && ko >= ar then ko else if ru >= ar then ru else ar;
    if score > 0 then detected
    else if kana > 0 then "ja"
    else if han > 0 then "zh-CN"
    else fallback
  }

  /**
   * Each answer of the choice on counts, as a condition on the counts, for
   * any fallback: a fallback that is itself one of the five codes is also
   * the answer when no script occurs.
   */
  lemma DominantAnswers(ko: nat, ru: nat, ar: nat, kana: nat, han: nat, fallback: string)
    ensures var r := Dominant(ko, ru, ar, kana, han, fallback);
      var none := ko == 0 && ru == 0 && ar == 0 && kana == 0 && han == 0;
      && (r == "ko" <==> (ko > 0 && ko >= ru && ko >= ar) || (fallback == "ko" && none))
      && (r == "ru" <==> (ru > 0 && ru > ko && ru >= ar) || (fallback == "ru" && none))
      && (r == "ar" <==> (ar > 0 && ar > ko && ar > ru) || (fallback == "ar" && none))
      && (r == "ja" <==> (ko == 0 && ru == 0 && ar == 0 && kana > 0) || (fallback == "ja" && none))
      && (r == "zh-CN" <==> (ko == 0 && ru == 0 && ar == 0 && kana == 0 && han > 0) || (fallback == "zh-CN" && none))
      && (none ==> r == fallback)
      && (!none ==> r in {"ko", "ru", "ar", "ja", "zh-CN"})
  {
  }

  /** `_detect_output_language` over the user messages only; no user text gives the fallback. */
  function DetectOutputLanguage(ms: seq<Message>, fallbackLanguage: string): (r: string)
    ensures r in {"ko", "ru", "ar", "ja", "zh-CN", Fallback(fallbackLanguage)}
  {
    var text := Join(UserContents(ms));
    if text == "" then Fallback(fallbackLanguage)
    else Dominant(Hangul(text), Cyrillic(text), Arabic(text), Kana(text), Han(text), Fallback(fallbackLanguage))
  }

  /** A message from another role, or without content, never changes the detected language, wherever it stands. */
  lemma OnlyUserTextCounts(a: seq<Message>, m: Message, b: seq<Message>, fallbackLanguage: string)
    requires m.role != "user" || m.content == ""
    ensures DetectOutputLanguage(a + [m] + b, fallbackLanguage) == DetectOutputLanguage(a + b, fallbackLanguage)
  {
    UserContentsAppend(a + [m], b);
    UserContentsAppend(a, [m]);
    UserContentsAppend(a, b);
    assert [m][1..] == [];
    assert UserContents([m]) == [];
    assert UserContents(a + [m] + b) == UserContents(a + b);
  }

  /** A Korean answer means Hangul occurs at least as often as Cyrillic and Arabic, unless `ko` is the fallback and no script occurs. */
  lemma KoreanWinsTies(ms: seq<Message>, fallbackLanguage: string)
    ensures var text := Join(UserContents(ms));
      DetectOutputLanguage(ms, fallbackLanguage) == "ko" <==>
        (Hangul(text) > 0 && Hangul(text) >= Cyrillic(text) && Hangul(text) >= Arabic(text))
        || (Fallback(fallbackLanguage) == "ko" && Hangul(text) == 0 && Cyrillic(text) == 0 && Arabic(text) == 0 && Kana(text) == 0 && Han(text) == 0)
  {
    var text := Join(UserContents(ms));
    var ko, ru, ar, kana, han := Hangul(text), Cyrillic(text), Arabic(text), Kana(text), Han(text);
    var fb := Fallback(fallbackLanguage);
    assert DetectOutputLanguage(ms, fallbackLanguage) == if text == "" then fb else Dominant(ko, ru, ar, kana, han, fb);
    DominantAnswers(ko, ru, ar, kana, han, fb);
  }

  /** A Russian answer means Cyrillic occurs more often than Hangul and at least as often as Arabic, unless `ru` is the fallback and no script occurs. */
  lemma RussianBeatsArabicOnTies(ms: seq<Message>, fallbackLanguage: string)
    ensures var text := Join(UserContents(ms));
      DetectOutputLanguage(ms, fallbackLanguage) == "ru" <==>
        (Cyrillic(text) > 0 && Cyrillic(text) > Hangul(text) && Cyrillic(text) >= Arabic(text))
        || (Fallback(fallbackLanguage) == "ru" && Hangul(text) == 0 && Cyrillic(text) == 0 && Arabic(text) == 0 && Kana(text) == 0 && Han(text) == 0)
  {
    var text := Join(UserContents(ms));
    var ko, ru, ar, kana, han := Hangul(text), Cyrillic(text), Arabic(text), Kana(text), Han(text);
    var fb := Fallback(fallbackLanguage);
    assert DetectOutputLanguage(ms, fallbackLanguage) == if text == "" then fb else Dominant(ko, ru, ar, kana, han, fb);
    DominantAnswers(ko, ru, ar, kana, han, fb);
  }

  /** An Arabic answer means Arabic occurs strictly more often than Hangul and Cyrillic, unless `ar` is the fallback and no script occurs. */
  lemma ArabicNeedsStrictMajority(ms: seq<Message>, fallbackLanguage: string)
    ensures var text := Join(UserContents(ms));
      DetectOutputLanguage(ms, fallbackLanguage) == "ar" <==>
        (Arabic(text) > 0 && Arabic(text) > Hangul(text) && Arabic(text) > Cyrillic(text))
        || (Fallback(fallbackLanguage) == "ar" && Hangul(text) == 0 && Cyrillic(text) == 0 && Arabic(text) == 0 && Kana(text) == 0 && Han(text) == 0)
  {
    var text := Join(UserContents(ms));
    var ko, ru, ar, kana, han := Hangul(text), Cyrillic(text), Arabic(text), Kana(text), Han(text);
    var fb := Fallback(fallbackLanguage);
    assert DetectOutputLanguage(ms, fallbackLanguage) == if text == "" then fb else Dominant(ko, ru, ar, kana, han, fb);
    DominantAnswers(ko, ru, ar, kana, han, fb);
  }

  /** A Japanese answer means no Hangul, Cyrillic or Arabic and some kana, whatever the Han count, unless `ja` is the fallback and no script occurs. */
  lemma KanaMeansJapanese(ms: seq<Message>, fallbackLanguage: string)
    ensures var text := Join(UserContents(ms));
      DetectOutputLanguage(ms, fallbackLanguage) == "ja" <==>
        (Hangul(text) == 0 && Cyrillic(text) == 0 && Arabic(text) == 0 && Kana(text) > 0)
        || (Fallback(fallbackLanguage) == "ja" && Hangul(text) == 0 && Cyrillic(text) == 0 && Arabic(text) == 0 && Kana(text) == 0 && Han(text) == 0)
  {
    var text := Join(UserContents(ms));
    var ko, ru, ar, kana, han := Hangul(text), Cyrillic(text), Arabic(text), Kana(text), Han(text);
    var fb := Fallback(fallbackLanguage);
    assert DetectOutputLanguage(ms, fallbackLanguage) == if text == "" then fb else Dominant(ko, ru, ar, kana, han, fb);
    DominantAnswers(ko, ru, ar, kana, han, fb);
  }

  /** A Chinese answer means Han characters and none of the other scripts, kana included, unless `zh-CN` is the fallback and no script occurs. */
  lemma HanWithoutKanaMeansChinese(ms: seq<Message>, fallbackLanguage: string)
    ensures var text := Join(UserContents(ms));
      DetectOutputLanguage(ms, fallbackLanguage) == "zh-CN" <==>
        (Hangul(text) == 0 && Cyrillic(text) == 0 && Arabic(text) == 0 && Kana(text) == 0 && Han(text) > 0)
        || (Fallback(fallbackLanguage) == "zh-CN" && Hangul(text) == 0 && Cyrillic(text) == 0 && Arabic(text) == 0 && Kana(text) == 0 && Han(text) == 0)
  {
    var text := Join(UserContents(ms));
    var ko, ru, ar, kana, han := Hangul(text), Cyrillic(text), Arabic(text), Kana(text), Han(text);
    var fb := Fallback(fallbackLanguage);
    assert DetectOutputLanguage(ms, fallbackLanguage) == if text == "" then fb else Dominant(ko, ru, ar, kana, han, fb);
    DominantAnswers(ko, ru, ar, kana, han, fb);
  }

  /** The fallback is the answer when none of the five scripts occurs in the user text; otherwise the answer is one of the five codes. */
  lemma FallbackWithoutScripts(ms: seq<Message>, fallbackLanguage: string)
    ensures var text := Join(UserContents(ms));
      && (Hangul(text) == 0 && Cyrillic(text) == 0 && Arabic(text) == 0 && Kana(text) == 0 && Han(text) == 0 ==>
            DetectOutputLanguage(ms, fallbackLanguage) == Fallback(fallbackLanguage))
      && (!(Hangul(text) == 0 && Cyrillic(text) == 0 && Arabic(text) == 0 && Kana(text) == 0 && Han(text) == 0) ==>
            DetectOutputLanguage(ms, fallbackLanguage) in {"ko", "ru", "ar", "ja", "zh-CN"})
  {
    var text := Join(UserContents(ms));
    var ko, ru, ar, kana, han := Hangul(text), Cyrillic(text), Arabic(text), Kana(text), Han(text);
    var fb := Fallback(fallbackLanguage);
    assert DetectOutputLanguage(ms, fallbackLanguage) == if text == "" then fb else Dominant(ko, ru, ar, kana, han, fb);
    DominantAnswers(ko, ru, ar, kana, han, fb);
  }

  /** Without user text the answer is the fallback. */
  lemma NoUserTextGivesFallback(ms: seq<Message>, fallbackLanguage: string)
    requires forall i :: 0 <= i < |ms| ==> ms[i].role != "user" || ms[i].content == ""
    ensures DetectOutputLanguage(ms, fallbackLanguage) == Fallback(fallbackLanguage)
  {
    NoUserContents(ms);
  }

  lemma {:induction false} NoUserContents(ms: seq<Message>)
    requires forall i :: 0 <= i < |ms| ==> ms[i].role != "user" || ms[i].content == ""
    ensures UserContents(ms) == []
    decreases |ms|
  {
    if ms != [] {
      assert forall i :: 0 <= i < |ms[1..]| ==> ms[1..][i] == ms[i + 1];
      NoUserContents(ms[1..]);
    }
  }

  // ---------------------------------------------------------------------
  // Tool statistics from a session

  /** One tool's figures in the collected statistics. */
  datatype ToolCallStats = ToolCallStats(durationMs: int, promptTokens: int, completionTokens: int, successTime: nat, callCount: nat)

  const NoCalls := ToolCallStats(0, 0, 0, 0, 0)

  /** The statistics after one more part: tool parts with a name are counted, everything else is skipped. */
  function Record(stats: map<string, ToolCallStats>, p: Part): (r: map<string, ToolCallStats>)
    ensures r.Keys == stats.Keys + (if p.ToolPart? && p.toolName != "" then {p.toolName} else {})
    ensures forall n :: n in stats && !IsCall(p, n) ==> r[n] == stats[n]
    ensures p.ToolPart? && p.toolName != "" ==>
      r[p.toolName].callCount == (if p.toolName in stats then stats[p.toolName].callCount else 0) + 1
  {
    if !p.ToolPart? || p.toolName == "" then stats
    else
      var before := if p.toolName in stats then stats[p.toolName] else NoCalls;
      stats[p.toolName := ToolCallStats(
        before.durationMs + p.durationMs.GetOr(0),
        before.promptTokens + p.promptTokens.GetOr(0),
        before.completionTokens + p.completionTokens.GetOr(0),
        before.successTime + (if p.toolStatus == "completed" then 1 else 0),
        before.callCount + 1)]
  }

  /** The statistics of a sequence of parts, recorded in order. */
  function Tally(ps: seq<Part>): (r: map<string, ToolCallStats>)
    ensures forall n :: n in r ==> n != "" && r[n].callCount > 0
    decreases |ps|
  {
    if ps == [] then map[] else Record(Tally(ps[..|ps| - 1]), ps[|ps| - 1])
  }

  /** Every part of every message, in order. */
  function AllParts(ms: seq<Message>): seq<Part>
    decreases |ms|
  {
    if ms == [] then [] else AllParts(ms[..|ms| - 1]) + ms[|ms| - 1].parts
  }

  /** A named tool part. */
  predicate IsCall(p: Part, name: string) {
    p.ToolPart? && p.toolName == name && name != ""
  }

  /** How many parts are calls of `name`. */
  function Calls(ps: seq<Part>, name: string): nat
    decreases |ps|
  {
    if ps == [] then 0 else Calls(ps[..|ps| - 1], name) + (if IsCall(ps[|ps| - 1], name) then 1 else 0)
  }

  /** How many parts are completed calls of `name`. */
  function Successes(ps: seq<Part>, name: string): nat
    decreases |ps|
  {
    if ps == [] then 0
    else Successes(ps[..|ps| - 1], name) + (if IsCall(ps[|ps| - 1], name) && ps[|ps| - 1].toolStatus == "completed" then 1 else 0)
  }

  /** The figures a tool part may carry. */
  datatype Figure = Duration | Prompt | Completion

  /** A part's figure; a missing one counts as 0. */
  function FigureOf(p: Part, f: Figure): int
    requires p.ToolPart?
  {
    match f
    case Duration => p.durationMs.GetOr(0)
    case Prompt => p.promptTokens.GetOr(0)
    case Completion => p.completionTokens.GetOr(0)
  }

  /** The collected figure of one tool. */
  function FigureIn(s: ToolCallStats, f: Figure): int {
    match f
    case Duration => s.durationMs
    case Prompt => s.promptTokens
    case Completion => s.completionTokens
  }

  /** The sum of a figure over the calls of `name`. */
  function Total(ps: seq<Part>, name: string, f: Figure): int
    decreases |ps|
  {
    if ps == [] then 0
    else Total(ps[..|ps| - 1], name, f) + (if IsCall(ps[|ps| - 1], name) then FigureOf(ps[|ps| - 1], f) else 0)
  }

  /** A tool with no calls has nothing to sum. */
  lemma {:induction false} TotalWithoutCalls(ps: seq<Part>, name: string, f: Figure)
    requires Calls(ps, name) == 0
    ensures Total(ps, name, f) == 0
    decreases |ps|
  {
    if ps != [] {
      TotalWithoutCalls(ps[..|ps| - 1], name, f);
    }
  }

  /** Whether a tool part leaves figure `f` out (Python's None). */
  predicate Lacks(p: Part, f: Figure)
    requires p.ToolPart?
  {
    match f
    case Duration => p.durationMs.None?
    case Prompt => p.promptTokens.None?
    case Completion => p.completionTokens.None?
  }

  /** A call of `name` that leaves figure `f` out adds nothing to that figure's sum. */
  lemma MissingFiguresAddNothing(ps: seq<Part>, p: Part, name: string, f: Figure)
    requires IsCall(p, name) && Lacks(p, f)
    ensures Total(ps + [p], name, f) == Total(ps, name, f)
  {
    assert (ps + [p])[..|ps|] == ps;
  }

  /** The tool names that occur, empty names excluded. */
  function ToolNames(ps: seq<Part>): set<string> {
    set i | 0 <= i < |ps| && ps[i].ToolPart? && ps[i].toolName != "" :: ps[i].toolName
  }

  /**
   * The collected statistics have exactly the non-empty tool names as keys;
   * each tool's call count is its number of calls and its success count the
   * number of completed ones, so it never exceeds the call count.
   */
  lemma {:induction false} TallyCounts(ps: seq<Part>)
    ensures Tally(ps).Keys == ToolNames(ps)
    ensures forall name :: name in Tally(ps) ==>
      Tally(ps)[name].callCount == Calls(ps, name)
      && Tally(ps)[name].successTime == Successes(ps, name)
      && Tally(ps)[name].successTime <= Tally(ps)[name].callCount
    ensures forall name, f :: name in Tally(ps) ==> FigureIn(Tally(ps)[name], f) == Total(ps, name, f)
    decreases |ps|
  {
    TallyKeys(ps);
    TallySums(ps);
    if ps != [] {
      var init := ps[..|ps| - 1];
      TallyCounts(init);
      forall name | name in Tally(ps)
        ensures Tally(ps)[name].callCount == Calls(ps, name)
        ensures Tally(ps)[name].successTime == Successes(ps, name)
      {
        if name !in Tally(init) {
          CallsPositive(init, name);
          SuccessesAtMostCalls(init, name);
        }
      }
      forall name | name in Tally(ps)
        ensures Tally(ps)[name].successTime <= Tally(ps)[name].callCount
      {
        SuccessesAtMostCalls(ps, name);
      }
    }
  }

  /** The collected statistics have exactly the non-empty tool names as keys. */
  lemma {:induction false} TallyKeys(ps: seq<Part>)
    ensures Tally(ps).Keys == ToolNames(ps)
    decreases |ps|
  {
    if ps != [] {
      var init := ps[..|ps| - 1];
      var p := ps[|ps| - 1];
      TallyKeys(init);
      forall n | n in ToolNames(ps) ensures n in ToolNames(init) || (p.ToolPart? && p.toolName != "" && n == p.toolName) {
        var i :| 0 <= i < |ps| && ps[i].ToolPart? && ps[i].toolName != "" && ps[i].toolName == n;
        if i < |init| { assert init[i] == ps[i]; }
      }
      forall n | n in ToolNames(init) ensures n in ToolNames(ps) {
        var i :| 0 <= i < |init| && init[i].ToolPart? && init[i].toolName != "" && init[i].toolName == n;
        assert ps[i] == init[i];
      }
    }
  }

  /** Each collected figure is the sum of that figure over the tool's calls. */
  lemma {:induction false} TallySums(ps: seq<Part>)
    ensures forall name, f :: name in Tally(ps) ==> FigureIn(Tally(ps)[name], f) == Total(ps, name, f)
    decreases |ps|
  {
    if ps != [] {
      var init := ps[..|ps| - 1];
      TallySums(init);
      forall name, f | name in Tally(ps)
        ensures FigureIn(Tally(ps)[name], f) == Total(ps, name, f)
      {
        if name !in Tally(init) {
          TallyKeys(init);
          CallsPositive(init, name);
          TotalWithoutCalls(init, name, f);
        }
      }
    }
  }

  /** A tool that never occurs is absent from the statistics; occurring means at least one call. */
  lemma ToolAbsentIffNoCalls(ps: seq<Part>, name: string)
    requires name != ""
    ensures name in Tally(ps) <==> Calls(ps, name) > 0
  {
    TallyCounts(ps);
    CallsPositive(ps, name);
  }

  lemma {:induction false} CallsPositive(ps: seq<Part>, name: string)
    requires name != ""
    ensures Calls(ps, name) > 0 <==> name in ToolNames(ps)
    decreases |ps|
  {
    if ps != [] {
      var init := ps[..|ps| - 1];
      CallsPositive(init, name);
      if name in ToolNames(init) {
        var i :| 0 <= i < |init| && init[i].ToolPart? && init[i].toolName != "" && init[i].toolName == name;
        assert ps[i] == init[i];
      }
    }
  }

  /** A tool never completes more often than it is called. */
  lemma {:induction false} SuccessesAtMostCalls(ps: seq<Part>, name: string)
    ensures Successes(ps, name) <= Calls(ps, name)
    decreases |ps|
  {
    if ps != [] {
      SuccessesAtMostCalls(ps[..|ps| - 1], name);
    }
  }

  lemma AllPartsStep(ms: seq<Message>, i: int)
    requires 0 <= i < |ms|
    ensures AllParts(ms[..i + 1]) == AllParts(ms[..i]) + ms[i].parts
  {
    assert ms[..i + 1][..i] == ms[..i];
  }

  lemma TallyStep(xs: seq<Part>, p: Part)
    ensures Tally(xs + [p]) == Record(Tally(xs), p)
  {
    assert (xs + [p])[..|xs|] == xs;
  }

  /** The update the collection loop makes for one part. */
  method RecordPart(stats: map<string, ToolCallStats>, part: Part) returns (updated: map<string, ToolCallStats>)
    ensures updated == Record(stats, part)
  {
    updated := stats;
    if !part.ToolPart? {
      return;
    }
    var name := part.toolName;
    if name == "" {
      return;
    }
    if name !in updated {
      updated := updated[name := NoCalls];
    }
    var entry := updated[name];
    entry := entry.(callCount := entry.callCount + 1);
    if part.durationMs.Some? {
      entry := entry.(durationMs := entry.durationMs + part.durationMs.value);
    }
    if part.promptTokens.Some? {
      entry := entry.(promptTokens := entry.promptTokens + part.promptTokens.value);
    }
    if part.completionTokens.Some? {
      entry := entry.(completionTokens := entry.completionTokens + part.completionTokens.value);
    }
    if part.toolStatus == "completed" {
      entry := entry.(successTime := entry.successTime + 1);
    }
    updated := updated[name := entry];
  }

  /** The inner loop of the collection: the parts of one message, in order. */
  method RecordParts(stats: map<string, ToolCallStats>, ghost done: seq<Part>, parts: seq<Part>)
    returns (updated: map<string, ToolCallStats>)
    requires stats == Tally(done)
    ensures updated == Tally(done + parts)
  {
    updated := stats;
    assert done + parts[..0] == done;
    for j := 0 to |parts|
      invariant updated == Tally(done + parts[..j])
    {
      TallyStep(done + parts[..j], parts[j]);
      assert done + parts[..j + 1] == done + parts[..j] + [parts[j]];
      updated := RecordPart(updated, parts[j]);
    }
    assert parts[..|parts|] == parts;
  }

  /** `_collect_tool_stats_from_messages`: the statistics of every part of every message. */
  method CollectToolStats(messages: seq<Message>) returns (stats: map<string, ToolCallStats>)
    ensures stats == Tally(AllParts(messages))
  {
    stats := map[];
    for i := 0 to |messages|
      invariant stats == Tally(AllParts(messages[..i]))
    {
      stats := RecordParts(stats, AllParts(messages[..i]), messages[i].parts);
      AllPartsStep(messages, i);
    }
    assert messages[..|messages|] == messages;
  }

  // ---------------------------------------------------------------------
  // Candidates

  /** One memory as the model returned it; `None` is a missing field. */
  datatype RawMemory = RawMemory(
    category: Option<string>, abstractText: Option<string>, overview: Option<string>, content: Option<string>,
    toolName: Option<string>, skillName: Option<string>)

  /** The extra fields of a tool or skill candidate. */
  datatype ToolSkillFields = ToolSkillFields(
    toolName: string, skillName: string, callTime: int, successTime: int,
    durationMs: int, promptTokens: int, completionTokens: int)

  datatype Candidate = Candidate(
    category: MemoryCategory, abstractText: string, overview: string, content: string,
    sourceSession: string, user: string, language: string, toolSkill: Option<ToolSkillFields>)

  /**
   * `tool_stats_map.get(tool_name or skill_name, {})`: the statistics under
   * the tool name, or under the skill name when the tool name is empty,
   * with zeros when there are none.
   */
  function StatsFor(toolStats: map<string, ToolCallStats>, toolName: string, skillName: string): (st: ToolCallStats)
    ensures var key := if toolName != "" then toolName else skillName;
      && (key in toolStats ==> st == toolStats[key])
      && (key !in toolStats ==> st == NoCalls)
  {
    var key := if toolName != "" then toolName else skillName;
    if key in toolStats then toolStats[key] else NoCalls
  }

  /**
   * One candidate: the category is parsed; a tool or skill candidate also
   * takes the session's statistics for its tool name, or for its skill name
   * when the tool name is empty, with zeros where there are none.
   */
  function ToCandidate(mem: RawMemory, toolStats: map<string, ToolCallStats>, session: string, user: string, language: string): (c: Candidate)
    ensures c.category == ParseCategory(mem.category)
    ensures c.abstractText == mem.abstractText.GetOr("") && c.overview == mem.overview.GetOr("") && c.content == mem.content.GetOr("")
    ensures c.sourceSession == session && c.user == user && c.language == language
    ensures c.toolSkill.Some? <==> c.category in {Tools, Skills}
    ensures c.toolSkill.Some? ==>
      var f := c.toolSkill.value;
      var st := StatsFor(toolStats, mem.toolName.GetOr(""), mem.skillName.GetOr(""));
      && f.toolName == mem.toolName.GetOr("") && f.skillName == mem.skillName.GetOr("")
      && f.callTime == st.callCount && f.successTime == st.successTime
      && f.durationMs == st.durationMs && f.promptTokens == st.promptTokens && f.completionTokens == st.completionTokens
  {
    var category := ParseCategory(mem.category);
    var extra :=
      if category in {Tools, Skills} then
        var toolName := mem.toolName.GetOr("");
        var skillName := mem.skillName.GetOr("");
        var st := StatsFor(toolStats, toolName, skillName);
        Some(ToolSkillFields(toolName, skillName, st.callCount, st.successTime, st.durationMs, st.promptTokens, st.completionTokens))
      else None;
    Candidate(category, mem.abstractText.GetOr(""), mem.overview.GetOr(""), mem.content.GetOr(""), session, user, language, extra)
  }

  /** The candidate list of `extract`: one candidate per returned memory, in order. */
  method BuildCandidates(memories: seq<RawMemory>, toolStats: map<string, ToolCallStats>, session: string, user: string, language: string)
    returns (candidates: seq<Candidate>)
    ensures |candidates| == |memories|
    ensures forall i :: 0 <= i < |memories| ==> candidates[i] == ToCandidate(memories[i], toolStats, session, user, language)
  {
    candidates := [];
    for i := 0 to |memories|
      invariant |candidates| == i
      invariant forall k :: 0 <= k < i ==> candidates[k] == ToCandidate(memories[k], toolStats, session, user, language)
    {
      candidates := candidates + [ToCandidate(memories[i], toolStats, session, user, language)];
    }
  }

  /**
   * A tool or skill candidate built from statistics collected from the
   * session never records more successes than calls.
   */
  lemma CandidateFromSessionIsConsistent(mem: RawMemory, ms: seq<Message>, session: string, user: string, language: string)
    ensures var c := ToCandidate(mem, Tally(AllParts(ms)), session, user, language);
      c.toolSkill.Some? ==> 0 <= c.toolSkill.value.successTime <= c.toolSkill.value.callTime
  {
    TallyCounts(AllParts(ms));
  }

  /**
   * A tool candidate named after a tool of the session carries that tool's
   * call and success counts and its duration and token sums.
   */
  lemma CandidateCarriesSessionFigures(mem: RawMemory, ms: seq<Message>, session: string, user: string, language: string)
    requires ParseCategory(mem.category) in {Tools, Skills} && mem.toolName.GetOr("") != ""
    ensures var ps := AllParts(ms);
      var name := mem.toolName.value;
      var f := ToCandidate(mem, Tally(ps), session, user, language).toolSkill.value;
      && f.callTime == Calls(ps, name) && f.successTime == Successes(ps, name)
      && f.durationMs == Total(ps, name, Duration)
      && f.promptTokens == Total(ps, name, Prompt) && f.completionTokens == Total(ps, name, Completion)
  {
    var ps := AllParts(ms);
    var name := mem.toolName.value;
    TallyCounts(ps);
    if name !in Tally(ps) {
      CallsPositive(ps, name);
      SuccessesAtMostCalls(ps, name);
      TotalWithoutCalls(ps, name, Duration);
      TotalWithoutCalls(ps, name, Prompt);
      TotalWithoutCalls(ps, name, Completion);
    } else {
      assert FigureIn(Tally(ps)[name], Duration) == Total(ps, name, Duration);
      assert FigureIn(Tally(ps)[name], Prompt) == Total(ps, name, Prompt);
      assert FigureIn(Tally(ps)[name], Completion) == Total(ps, name, Completion);
    }
  }

  // ---------------------------------------------------------------------
  // Merge bundle

  /** The fields of a merged memory. */
  datatype MergedPayload = MergedPayload(abstractText: string, overview: string, content: string, reason: string)

  /** The model's merge answer; `None` is a missing or null field. */
  datatype MergeAnswer = MergeAnswer(abstractText: Option<string>, overview: Option<string>, content: Option<string>,
                                     reason: Option<string>, decision: Option<string>)

  /**
   * The checks of `_merge_memory_bundle`: every field is stripped and the
   * decision lower-cased; a decision other than empty or "merge" is
   * refused, and so is an empty abstract or content.
   */
  function AcceptMergeBundle(a: MergeAnswer): (r: Option<MergedPayload>)
    ensures r.Some? <==>
      Lower(Strip(a.decision.GetOr(""))) in {"", "merge"}
      && Strip(a.abstractText.GetOr("")) != "" && Strip(a.content.GetOr("")) != ""
    ensures r.Some? ==>
      r.value.abstractText == Strip(a.abstractText.GetOr("")) && r.value.content == Strip(a.content.GetOr(""))
      && r.value.overview == Strip(a.overview.GetOr("")) && r.value.reason == Strip(a.reason.GetOr(""))
  {
    var abstractText := Strip(a.abstractText.GetOr(""));
    var overview := Strip(a.overview.GetOr(""));
    var content := Strip(a.content.GetOr(""));
    var reason := Strip(a.reason.GetOr(""));
    var decision := Lower(Strip(a.decision.GetOr("")));
    if decision != "" && decision != "merge" then None
    else if abstractText == "" || content == "" then None
    else Some(MergedPayload(abstractText, overview, content, reason))
  }

  /** An accepted payload has non-empty, already stripped fields. */
  lemma AcceptedPayloadIsClean(a: MergeAnswer)
    requires AcceptMergeBundle(a).Some?
    ensures var p := AcceptMergeBundle(a).value;
      p.abstractText != "" && p.content != "" && Strip(p.abstractText) == p.abstractText && Strip(p.content) == p.content
  {
    StripIdempotent(a.abstractText.GetOr(""));
    StripIdempotent(a.content.GetOr(""));
  }

  // ---------------------------------------------------------------------
  // Tool statistics merge

  /** The five counters of a tool memory. */
  datatype ToolTotals = ToolTotals(totalCalls: int, successCount: int, failCount: int, totalTimeMs: int, totalTokens: int)

  /** The counters with their averages and success rate. */
  datatype ToolSummary = ToolSummary(totals: ToolTotals, avgTimeMs: real, avgTokens: real, successRate: real)

  /** Successes and failures partition the calls. */
  predicate Consistent(t: ToolTotals) {
    0 <= t.successCount <= t.totalCalls && t.failCount == t.totalCalls - t.successCount
  }

  function AddTotals(a: ToolTotals, b: ToolTotals): ToolTotals {
    ToolTotals(a.totalCalls + b.totalCalls, a.successCount + b.successCount, a.failCount + b.failCount,
               a.totalTimeMs + b.totalTimeMs, a.totalTokens + b.totalTokens)
  }

  /**
   * `_compute_statistics_derived`: averages and success rate per call, all
   * zero when there are no calls.
   */
  function ComputeDerived(t: ToolTotals): (r: ToolSummary)
    ensures r.totals == t
    ensures t.totalCalls <= 0 ==> r.avgTimeMs == 0.0 && r.avgTokens == 0.0 && r.successRate == 0.0
    ensures t.totalCalls > 0 ==>
      r.avgTimeMs * t.totalCalls as real == t.totalTimeMs as real
      && r.avgTokens * t.totalCalls as real == t.totalTokens as real
      && r.successRate * t.totalCalls as real == t.successCount as real
    ensures Consistent(t) ==> 0.0 <= r.successRate <= 1.0
  {
    if t.totalCalls > 0 then
      var n := t.totalCalls as real;
      ToolSummary(t, t.totalTimeMs as real / n, t.totalTokens as real / n, t.successCount as real / n)
    else ToolSummary(t, 0.0, 0.0, 0.0)
  }

  /**
   * `_merge_tool_statistics`: the five counters summed, then the derived
   * figures of the sum.
   */
  function MergeToolStatistics(existing: ToolTotals, added: ToolTotals): (r: ToolSummary)
    ensures r.totals.totalCalls == existing.totalCalls + added.totalCalls
    ensures r.totals.successCount == existing.successCount + added.successCount
    ensures r.totals.failCount == existing.failCount + added.failCount
    ensures r.totals.totalTimeMs == existing.totalTimeMs + added.totalTimeMs
    ensures r.totals.totalTokens == existing.totalTokens + added.totalTokens
    ensures r == ComputeDerived(r.totals)
  {
    ComputeDerived(AddTotals(existing, added))
  }

  /** Merging consistent counters gives consistent counters and a rate in [0, 1]. */
  lemma MergeKeepsConsistency(a: ToolTotals, b: ToolTotals)
    requires Consistent(a) && Consistent(b)
    ensures Consistent(MergeToolStatistics(a, b).totals)
    ensures 0.0 <= MergeToolStatistics(a, b).successRate <= 1.0
  {
  }

  /** Merging is order-independent and grouping-independent. */
  lemma MergeCommutesAndAssociates(a: ToolTotals, b: ToolTotals, c: ToolTotals)
    ensures MergeToolStatistics(a, b) == MergeToolStatistics(b, a)
    ensures MergeToolStatistics(MergeToolStatistics(a, b).totals, c) == MergeToolStatistics(a, MergeToolStatistics(b, c).totals)
  {
  }

  /** A blank name (empty or whitespace only) makes a merge a no-op. */
  predicate BlankName(name: string) {
    Strip(name) == ""
  }

  /**
   * The new counters `_merge_tool_memory` adds. A tool candidate brings its
   * session figures, failures being the calls that did not succeed. Any
   * other candidate brings what its text records; when that is no call at
   * all it counts as one successful call, since a plain candidate carries no
   * tool status and the status defaults to "completed".
   */
  function NewToolTotals(c: Candidate, parsed: ToolTotals): (t: ToolTotals)
    ensures c.toolSkill.Some? ==> t.totalCalls == c.toolSkill.value.callTime && t.successCount == c.toolSkill.value.successTime
    ensures c.toolSkill.Some? ==> t.failCount == t.totalCalls - t.successCount
    ensures c.toolSkill.Some? ==>
      t.totalTimeMs == c.toolSkill.value.durationMs
      && t.totalTokens == c.toolSkill.value.promptTokens + c.toolSkill.value.completionTokens
    ensures c.toolSkill.None? && parsed.totalCalls == 0 ==> t.totalCalls == 1 && t.successCount == 1 && t.failCount == 0
    ensures c.toolSkill.None? && parsed.totalCalls == 0 ==> t.totalTimeMs == parsed.totalTimeMs && t.totalTokens == parsed.totalTokens
    ensures c.toolSkill.None? && parsed.totalCalls != 0 ==> t == parsed
  {
    match c.toolSkill
    case Some(f) =>
      ToolTotals(f.callTime, f.successTime, f.callTime - f.successTime, f.durationMs, f.promptTokens + f.completionTokens)
    case None =>
      if parsed.totalCalls == 0 then parsed.(totalCalls := 1, successCount := 1, failCount := 0) else parsed
  }

  /**
   * The statistics `_merge_tool_memory` writes: nothing for a blank name;
   * for a new file (blank existing text) the derived figures of the new
   * counters; otherwise the merge with the counters read from the file.
   */
  function ToolMemoryStats(toolName: string, c: Candidate, parsedNew: ToolTotals, existing: string, parsedExisting: ToolTotals)
    : (r: Option<ToolSummary>)
    ensures BlankName(toolName) <==> r.None?
    ensures r.Some? && Strip(existing) == "" ==> r.value == ComputeDerived(NewToolTotals(c, parsedNew))
    ensures r.Some? && Strip(existing) != "" ==> r.value == MergeToolStatistics(parsedExisting, NewToolTotals(c, parsedNew))
  {
    if BlankName(toolName) then None
    else if Strip(existing) == "" then Some(ComputeDerived(NewToolTotals(c, parsedNew)))
    else Some(MergeToolStatistics(parsedExisting, NewToolTotals(c, parsedNew)))
  }

  /**
   * A tool candidate built from the session's own statistics keeps a file's
   * consistent counters consistent, and its success rate within [0, 1].
   */
  lemma SessionToolMemoryIsConsistent(toolName: string, mem: RawMemory, ms: seq<Message>, session: string, user: string,
                                      language: string, parsedNew: ToolTotals, existing: string, parsedExisting: ToolTotals)
    requires Consistent(parsedExisting)
    requires ParseCategory(mem.category) == Tools
    ensures var c := ToCandidate(mem, Tally(AllParts(ms)), session, user, language);
      var r := ToolMemoryStats(toolName, c, parsedNew, existing, parsedExisting);
      r.Some? ==> Consistent(r.value.totals) && 0.0 <= r.value.successRate <= 1.0
  {
    CandidateFromSessionIsConsistent(mem, ms, session, user, language);
  }

  // ---------------------------------------------------------------------
  // Skill statistics merge

  datatype SkillTotals = SkillTotals(totalExecutions: int, successCount: int, failCount: int)

  datatype SkillSummary = SkillSummary(totals: SkillTotals, successRate: real)

  predicate SkillConsistent(t: SkillTotals) {
    0 <= t.successCount <= t.totalExecutions && t.failCount == t.totalExecutions - t.successCount
  }

  /** `_compute_skill_statistics_derived`: the success rate, zero without executions. */
  function ComputeSkillDerived(t: SkillTotals): (r: SkillSummary)
    ensures r.totals == t
    ensures t.totalExecutions <= 0 ==> r.successRate == 0.0
    ensures t.totalExecutions > 0 ==> r.successRate * t.totalExecutions as real == t.successCount as real
    ensures SkillConsistent(t) ==> 0.0 <= r.successRate <= 1.0
  {
    if t.totalExecutions > 0 then SkillSummary(t, t.successCount as real / t.totalExecutions as real)
    else SkillSummary(t, 0.0)
  }

  /** `_merge_skill_statistics`: the three counters summed, then the rate of the sum. */
  function MergeSkillStatistics(existing: SkillTotals, added: SkillTotals): (r: SkillSummary)
    ensures r.totals.totalExecutions == existing.totalExecutions + added.totalExecutions
    ensures r.totals.successCount == existing.successCount + added.successCount
    ensures r.totals.failCount == existing.failCount + added.failCount
    ensures r == ComputeSkillDerived(r.totals)
  {
    ComputeSkillDerived(SkillTotals(existing.totalExecutions + added.totalExecutions,
                                    existing.successCount + added.successCount,
                                    existing.failCount + added.failCount))
  }

  /** Merging consistent skill counters gives consistent counters and a rate in [0, 1]. */
  lemma SkillMergeKeepsConsistency(a: SkillTotals, b: SkillTotals)
    requires SkillConsistent(a) && SkillConsistent(b)
    ensures SkillConsistent(MergeSkillStatistics(a, b).totals)
    ensures 0.0 <= MergeSkillStatistics(a, b).successRate <= 1.0
  {
  }

  /**
   * The new counters `_merge_skill_memory` adds: what the candidate's text
   * records, or, when that is no execution, one execution that failed if
   * the text mentions "error" or "fail" (in any case) and succeeded otherwise.
   */
  function NewSkillTotals(content: string, parsed: SkillTotals): (t: SkillTotals)
    ensures parsed.totalExecutions != 0 ==> t == parsed
    ensures parsed.totalExecutions == 0 ==> SkillConsistent(t) && t.totalExecutions == 1
    ensures parsed.totalExecutions == 0 ==>
      (t.failCount == 1 <==> Contains(Lower(content), "error") || Contains(Lower(content), "fail"))
  {
    if parsed.totalExecutions != 0 then parsed
    else if Contains(Lower(content), "error") || Contains(Lower(content), "fail") then SkillTotals(1, 0, 1)
    else SkillTotals(1, 1, 0)
  }

  /**
   * The statistics `_merge_skill_memory` writes: nothing for a blank name;
   * the new counters' rate for a new file; otherwise the merge.
   */
  function SkillMemoryStats(skillName: string, content: string, parsedNew: SkillTotals, existing: string, parsedExisting: SkillTotals)
    : (r: Option<SkillSummary>)
    ensures BlankName(skillName) <==> r.None?
    ensures r.Some? && Strip(existing) == "" ==> r.value == ComputeSkillDerived(NewSkillTotals(content, parsedNew))
    ensures r.Some? && Strip(existing) != "" ==> r.value == MergeSkillStatistics(parsedExisting, NewSkillTotals(content, parsedNew))
  {
    if BlankName(skillName) then None
    else if Strip(existing) == "" then Some(ComputeSkillDerived(NewSkillTotals(content, parsedNew)))
    else Some(MergeSkillStatistics(parsedExisting, NewSkillTotals(content, parsedNew)))
  }
}
