/**
 * The intent and entity classifier of the chat assistant (services/nlpService.js).
 *
 * Regular expressions are not interpreted here: the classifier receives a tester
 * `test(source, text)` for the intent patterns and a matcher `matchAll(source, text)` for the
 * global entity patterns, both keyed by the pattern's source text. The natural-language
 * library's outputs (people, places, organizations, nouns, verbs, adjectives, sentiment)
 * and the stopword list are inputs too. Confidences are in integer tenths.
 */
module NlpService {
  import opened Wrappers
  import opened JsText
  import JsObject

  // ---------------------------------------------------------------------------
  // Labels and the static rule tables
  // ---------------------------------------------------------------------------

  datatype Intent =
    | CreateEmployee | AllocateAsset | GetAssets | GetEmployeeStatus
    | SendNotification | GetEmployees | Unknown

  function IntentName(i: Intent): string {
    match i
    case CreateEmployee => "CREATE_EMPLOYEE"
    case AllocateAsset => "ALLOCATE_ASSET"
    case GetAssets => "GET_ASSETS"
    case GetEmployeeStatus => "GET_EMPLOYEE_STATUS"
    case SendNotification => "SEND_NOTIFICATION"
    case GetEmployees => "GET_EMPLOYEES"
    case Unknown => "UNKNOWN"
  }

  datatype Label = Person | EmployeeId | Asset | Email | NotificationType | Place | Organization

  function LabelName(l: Label): string {
    match l
    case Person => "PERSON"
    case EmployeeId => "EMPLOYEE_ID"
    case Asset => "ASSET"
    case Email => "EMAIL"
    case NotificationType => "NOTIFICATION_TYPE"
    case Place => "PLACE"
    case Organization => "ORGANIZATION"
  }

  /** One entry of the intent table: its keywords and the sources of its case-insensitive patterns. */
  datatype IntentRule = IntentRule(intent: Intent, keywords: seq<string>, patterns: seq<string>)

  /** The intent table, in declaration order (which decides ties). */
  const IntentTable: seq<IntentRule> := [
    IntentRule(CreateEmployee,
      ["create", "add", "new", "register", "onboard", "hire", "employee", "person", "staff"],
      ["create\\s+(new\\s+)?employee", "add\\s+(new\\s+)?employee", "register\\s+(new\\s+)?employee",
       "onboard\\s+", "hire\\s+"]),
    IntentRule(AllocateAsset,
      ["allocate", "assign", "give", "provide", "laptop", "computer", "phone", "asset", "equipment"],
      ["allocate\\s+\\w+\\s+to", "assign\\s+\\w+\\s+to", "give\\s+\\w+\\s+to", "provide\\s+\\w+\\s+(to|for)"]),
    IntentRule(GetAssets,
      ["show", "list", "get", "available", "assets", "equipment", "inventory"],
      ["show\\s+(all\\s+)?available\\s+assets", "list\\s+(all\\s+)?assets", "get\\s+(all\\s+)?assets",
       "what\\s+assets\\s+are\\s+available"]),
    IntentRule(GetEmployeeStatus,
      ["status", "progress", "check", "employee", "onboarding"],
      ["employee\\s+\\w+\\s+status", "check\\s+status", "onboarding\\s+status", "progress\\s+of"]),
    IntentRule(SendNotification,
      ["send", "notify", "notification", "email", "message", "alert"],
      ["send\\s+notification", "notify\\s+", "send\\s+email", "send\\s+message"]),
    IntentRule(GetEmployees,
      ["employees", "staff", "people", "workers", "list"],
      ["show\\s+(all\\s+)?employees", "list\\s+(all\\s+)?employees", "get\\s+(all\\s+)?employees"])
  ]

  /** One entry of the entity-pattern table: a label and the sources of its global patterns. */
  datatype EntityRule = EntityRule(tag: Label, patterns: seq<string>)

  const EntityTable: seq<EntityRule> := [
    EntityRule(Person, ["\\b[A-Z][a-z]+\\s+[A-Z][a-z]+\\b"]),
    EntityRule(EmployeeId, ["EMP\\d{3,}", "employee\\s+\\d+", "\\b\\d{3,}\\b"]),
    EntityRule(Asset, ["laptop", "computer", "phone", "mobile", "tablet", "monitor", "keyboard", "mouse"]),
    EntityRule(Email, ["\\b[A-Za-z0-9._%+-]+@[A-Za-z0-9.-]+\\.[A-Z|a-z]{2,}\\b"]),
    EntityRule(NotificationType, ["welcome", "reminder", "alert", "update"])
  ]

  /** Confidences, in tenths, of the three kinds of extracted entity. */
  const PersonConfidence: nat := 9
  const PlaceConfidence: nat := 8
  const PatternConfidence: nat := 7

  // ---------------------------------------------------------------------------
  // Tokenizing and stopword removal
  // ---------------------------------------------------------------------------

  /** The characters `tokenize` keeps: `\w`, `\s`, `@`, `.` and `-`. */
  predicate TokenChar(c: char) {
    IsWordChar(c) || IsSpace(c) || c == '@' || c == '.' || c == '-'
  }

  /** `.replace(/[^\w\s@.-]/g, ' ')`. */
  function Clean(s: string): (r: string)
    ensures |r| == |s|
    ensures forall i :: 0 <= i < |s| ==> r[i] == if TokenChar(s[i]) then s[i] else ' '
  {
    seq(|s|, i requires 0 <= i < |s| => if TokenChar(s[i]) then s[i] else ' ')
  }

  /** `tokenize(text)`: lowercase, blank out other characters, split on white space, drop empties. */
  function Tokenize(text: string): seq<string> {
    Words(Clean(ToLower(text)))
  }

  /** What every token looks like: non-empty, lower case, only `\w`, `@`, `.`, `-`. */
  predicate IsToken(t: string) {
    t != [] && forall c :: c in t ==> TokenChar(c) && !IsSpace(c) && !IsUpper(c)
  }

  lemma CleanedSlice(l: string, t: string)
    requires forall c :: c in l ==> !IsUpper(c)
    requires Contains(Clean(l), t)
    requires NoSpace(t)
    ensures Contains(l, t)
    ensures forall c :: c in t ==> TokenChar(c) && !IsSpace(c) && !IsUpper(c)
  {
    var j :| 0 <= j <= |Clean(l)| - |t| && SliceAt(Clean(l), t, j);
    forall m | 0 <= m < |t| ensures t[m] == l[j + m] && TokenChar(t[m]) {
      assert t[m] == Clean(l)[j + m];
      assert t[m] in t;
    }
    assert l[j..j + |t|] == t;
    assert SliceAt(l, t, j);
    forall c | c in t ensures TokenChar(c) && !IsSpace(c) && !IsUpper(c) {
      var m :| 0 <= m < |t| && t[m] == c;
      assert l[j + m] in l;
    }
  }

  /** Every token is well formed and is a contiguous slice of the lower-cased input. */
  lemma TokenizeSound(text: string)
    ensures forall k :: 0 <= k < |Tokenize(text)| ==>
      IsToken(Tokenize(text)[k]) && Contains(ToLower(text), Tokenize(text)[k])
  {
    var l := ToLower(text);
    WordsAreSlices(Clean(l));
    forall k | 0 <= k < |Tokenize(text)|
      ensures IsToken(Tokenize(text)[k]) && Contains(l, Tokenize(text)[k])
    {
      CleanedSlice(l, Tokenize(text)[k]);
    }
  }

  /** Tokenizing the tokens joined by single spaces gives the same tokens back. */
  lemma TokenizeJoin(tokens: seq<string>)
    requires forall k :: 0 <= k < |tokens| ==> IsToken(tokens[k])
    ensures Tokenize(Join(tokens, " ")) == tokens
  {
    var s := Join(tokens, " ");
    JoinChars(tokens, " ");
    forall i | 0 <= i < |s| ensures TokenChar(s[i]) && !IsUpper(s[i]) {
      assert s[i] in s;
      if s[i] !in " " {
        var k :| 0 <= k < |tokens| && s[i] in tokens[k];
      }
    }
    assert ToLower(s) == s;
    assert Clean(s) == s;
    forall k | 0 <= k < |tokens| ensures tokens[k] != [] && NoSpace(tokens[k]) {
    }
    WordsOfJoin(tokens);
  }

  /** `removeStopwords(tokens)`: the tokens that are not on the stopword list, in order. */
  function RemoveStopwords(tokens: seq<string>, stopwords: set<string>): (r: seq<string>)
    ensures |r| <= |tokens|
    ensures forall t :: t in r ==> t in tokens && t !in stopwords
    ensures forall t :: t in tokens && t !in stopwords ==> t in r
  {
    if tokens == [] then []
    else
      var rest := RemoveStopwords(tokens[1..], stopwords);
      assert forall t :: t in tokens ==> t == tokens[0] || t in tokens[1..];
      if tokens[0] in stopwords then rest else [tokens[0]] + rest
  }

  // ---------------------------------------------------------------------------
  // Intent classification
  // ---------------------------------------------------------------------------

  /** Number of the patterns that the text matches. */
  function PatternHits(patterns: seq<string>, text: string, test: (string, string) -> bool): (n: nat)
    ensures n <= |patterns|
  {
    if patterns == [] then 0
    else
      PatternHits(patterns[..|patterns| - 1], text, test)
      + (if test(patterns[|patterns| - 1], text) then 1 else 0)
  }

  /** A keyword is present when it is a cleaned token or a substring of the lower-cased text. */
  predicate KeywordFound(keyword: string, text: string, cleanedTokens: seq<string>) {
    ToLower(keyword) in cleanedTokens || Contains(ToLower(text), ToLower(keyword))
  }

  /** Number of the keywords present; each entry of the list counts at most once. */
  function KeywordHits(keywords: seq<string>, text: string, cleanedTokens: seq<string>): (n: nat)
    ensures n <= |keywords|
  {
    if keywords == [] then 0
    else
      KeywordHits(keywords[..|keywords| - 1], text, cleanedTokens)
      + (if KeywordFound(keywords[|keywords| - 1], text, cleanedTokens) then 1 else 0)
  }

  /** An intent's score: three per matching pattern plus one per keyword present. */
  function Score(rule: IntentRule, text: string, cleanedTokens: seq<string>, test: (string, string) -> bool): nat {
    3 * PatternHits(rule.patterns, text, test) + KeywordHits(rule.keywords, text, cleanedTokens)
  }

  lemma ScoreBound(rule: IntentRule, text: string, cleanedTokens: seq<string>, test: (string, string) -> bool)
    ensures Score(rule, text, cleanedTokens, test) <= 3 * |rule.patterns| + |rule.keywords|
  {
  }

  /** The scores of a table's rules, in table order. */
  function TableScores(table: seq<IntentRule>, text: string, cleanedTokens: seq<string>, test: (string, string) -> bool)
    : (s: seq<nat>)
    ensures |s| == |table|
  {
    seq(|table|, k requires 0 <= k < |table| => Score(table[k], text, cleanedTokens, test))
  }

  /** The scores of the whole intent table, in declaration order. */
  function Scores(text: string, cleanedTokens: seq<string>, test: (string, string) -> bool): (s: seq<nat>)
    ensures |s| == |IntentTable|
  {
    TableScores(IntentTable, text, cleanedTokens, test)
  }

  /** Position `k` holds the first of the maximal, positive scores. */
  predicate FirstBest(scores: seq<nat>, k: int) {
    && 0 <= k < |scores|
    && scores[k] > 0
    && (forall j :: 0 <= j < |scores| ==> scores[j] <= scores[k])
    && (forall j :: 0 <= j < k ==> scores[j] < scores[k])
  }

  /**
   * When the cleaned tokens all occur in the lower-cased text, the token test adds nothing:
   * a keyword is found exactly when it is a substring of the lower-cased text.
   */
  lemma {:induction false} KeywordHitsBySubstring(keywords: seq<string>, text: string, cleanedTokens: seq<string>)
    requires forall t :: t in cleanedTokens ==> Contains(ToLower(text), t)
    ensures KeywordHits(keywords, text, cleanedTokens) == KeywordHits(keywords, text, [])
  {
    if keywords != [] {
      KeywordHitsBySubstring(keywords[..|keywords| - 1], text, cleanedTokens);
    }
  }

  /** For the classifier's real inputs, the cleaned tokens come from `tokenize`, so the lemma above applies. */
  lemma CleanedTokensAreSubstrings(text: string, stopwords: set<string>)
    ensures forall t :: t in RemoveStopwords(Tokenize(text), stopwords) ==> Contains(ToLower(text), t)
  {
    TokenizeSound(text);
    forall t | t in RemoveStopwords(Tokenize(text), stopwords) ensures Contains(ToLower(text), t) {
      var k :| 0 <= k < |Tokenize(text)| && Tokenize(text)[k] == t;
    }
  }

  /** The score of one intent, computed as `classifyIntent` does with its two inner loops. */
  method IntentScore(rule: IntentRule, text: string, cleanedTokens: seq<string>, test: (string, string) -> bool)
    returns (score: nat)
    ensures score == Score(rule, text, cleanedTokens, test)
  {
    score := 0;
    var i := 0;
    while i < |rule.patterns|
      invariant 0 <= i <= |rule.patterns|
      invariant score == 3 * PatternHits(rule.patterns[..i], text, test)
    {
      assert rule.patterns[..i + 1][..i] == rule.patterns[..i];
      if test(rule.patterns[i], text) {
        score := score + 3;
      }
      i := i + 1;
    }
    assert rule.patterns[..i] == rule.patterns;
    var j := 0;
    while j < |rule.keywords|
      invariant 0 <= j <= |rule.keywords|
      invariant score == 3 * PatternHits(rule.patterns, text, test) + KeywordHits(rule.keywords[..j], text, cleanedTokens)
    {
      assert rule.keywords[..j + 1][..j] == rule.keywords[..j];
      var keyword := rule.keywords[j];
      if ToLower(keyword) in cleanedTokens || Contains(ToLower(text), ToLower(keyword)) {
        score := score + 1;
      }
      j := j + 1;
    }
    assert rule.keywords[..j] == rule.keywords;
  }

  /**
   * The loop of `classifyIntent` over a table with no UNKNOWN rule: UNKNOWN exactly when every
   * rule scores 0; otherwise the intent of the first rule whose score is maximal (the update
   * uses a strict `>`).
   */
  method BestIntent(table: seq<IntentRule>, text: string, cleanedTokens: seq<string>, test: (string, string) -> bool)
    returns (intent: Intent)
    requires forall k :: 0 <= k < |table| ==> table[k].intent != Unknown
    ensures intent == Unknown <==> forall j :: 0 <= j < |table| ==> TableScores(table, text, cleanedTokens, test)[j] == 0
    ensures intent != Unknown ==>
      exists k :: FirstBest(TableScores(table, text, cleanedTokens, test), k) && table[k].intent == intent
  {
    ghost var scores := TableScores(table, text, cleanedTokens, test);
    var bestIntent := Unknown;
    var highestScore := 0;
    ghost var bestIndex := -1;
    var i := 0;
    while i < |table|
      invariant 0 <= i <= |table|
      invariant highestScore == 0 <==> forall j :: 0 <= j < i ==> scores[j] == 0
      invariant highestScore == 0 ==> bestIntent == Unknown
      invariant highestScore > 0 ==>
        && 0 <= bestIndex < i
        && scores[bestIndex] == highestScore
        && bestIntent == table[bestIndex].intent
        && (forall j :: 0 <= j < i ==> scores[j] <= highestScore)
        && (forall j :: 0 <= j < bestIndex ==> scores[j] < highestScore)
    {
      var score := IntentScore(table[i], text, cleanedTokens, test);
      assert score == scores[i];
      if score > highestScore {
        highestScore := score;
        bestIntent := table[i].intent;
        bestIndex := i;
      }
      i := i + 1;
    }
    intent := if highestScore > 0 then bestIntent else Unknown;
    if highestScore > 0 {
      assert FirstBest(scores, bestIndex);
    }
  }

  /**
   * `classifyIntent`: UNKNOWN exactly when every intent scores 0; otherwise the first intent,
   * in declaration order, whose score is maximal.
   */
  method ClassifyIntent(text: string, cleanedTokens: seq<string>, test: (string, string) -> bool)
    returns (intent: Intent)
    ensures intent == Unknown <==> forall j :: 0 <= j < |IntentTable| ==> Scores(text, cleanedTokens, test)[j] == 0
    ensures intent != Unknown ==>
      exists k :: FirstBest(Scores(text, cleanedTokens, test), k) && IntentTable[k].intent == intent
  {
    intent := BestIntent(IntentTable, text, cleanedTokens, test);
    assert Scores(text, cleanedTokens, test) == TableScores(IntentTable, text, cleanedTokens, test);
  }

  // ---------------------------------------------------------------------------
  // Entity extraction
  // ---------------------------------------------------------------------------

  datatype Entity = Entity(text: string, tag: Label, confidence: nat)

  /** The de-duplication key: the lower-cased text and the label. */
  function Key(e: Entity): (string, Label) {
    (ToLower(e.text), e.tag)
  }

  function KeySet(xs: seq<Entity>): set<(string, Label)> {
    set i | 0 <= i < |xs| :: Key(xs[i])
  }

  predicate NoDuplicateKeys(xs: seq<Entity>) {
    forall i, j :: 0 <= i < j < |xs| ==> Key(xs[i]) != Key(xs[j])
  }

  /** Non-increasing confidence. */
  predicate SortedByConfidence(xs: seq<Entity>) {
    forall i, j :: 0 <= i < j < |xs| ==> xs[i].confidence >= xs[j].confidence
  }

  /** The only (label, confidence) pairs an extracted entity can carry. */
  predicate WellTagged(e: Entity) {
    || (e.confidence == PersonConfidence && e.tag == Person)
    || (e.confidence == PlaceConfidence && (e.tag == Place || e.tag == Organization))
    || (e.confidence == PatternConfidence && e.tag in {Person, EmployeeId, Asset, Email, NotificationType})
  }

  /** The texts found by the natural-language library, tagged with one label and confidence. */
  function Tagged(texts: seq<string>, tag: Label, confidence: nat): (r: seq<Entity>)
    ensures |r| == |texts|
    ensures forall k :: 0 <= k < |texts| ==> r[k] == Entity(texts[k], tag, confidence)
  {
    seq(|texts|, k requires 0 <= k < |texts| => Entity(texts[k], tag, confidence))
  }

  /** The entities pushed for the matches of one pattern (each match trimmed). */
  function MatchEntities(matches: seq<string>, tag: Label): (r: seq<Entity>)
    ensures |r| == |matches|
    ensures forall k :: 0 <= k < |matches| ==> r[k] == Entity(Trim(matches[k]), tag, PatternConfidence)
  {
    seq(|matches|, k requires 0 <= k < |matches| => Entity(Trim(matches[k]), tag, PatternConfidence))
  }

  /** The entities pushed for the patterns of one label, in pattern order. */
  function RuleEntities(tag: Label, patterns: seq<string>, text: string, matchAll: (string, string) -> seq<string>)
    : seq<Entity>
  {
    if patterns == [] then []
    else
      RuleEntities(tag, patterns[..|patterns| - 1], text, matchAll)
      + MatchEntities(matchAll(patterns[|patterns| - 1], text), tag)
  }

  /** The entities pushed for the whole entity-pattern table, in table order. */
  function PatternEntities(rules: seq<EntityRule>, text: string, matchAll: (string, string) -> seq<string>)
    : seq<Entity>
  {
    if rules == [] then []
    else
      var last := rules[|rules| - 1];
      PatternEntities(rules[..|rules| - 1], text, matchAll) + RuleEntities(last.tag, last.patterns, text, matchAll)
  }

  /** Everything `extractEntities` pushes, before de-duplication and sorting. */
  function RawEntities(
    text: string, people: seq<string>, places: seq<string>, organizations: seq<string>,
    matchAll: (string, string) -> seq<string>): seq<Entity>
  {
    Tagged(people, Person, PersonConfidence)
    + Tagged(places, Place, PlaceConfidence)
    + Tagged(organizations, Organization, PlaceConfidence)
    + PatternEntities(EntityTable, text, matchAll)
  }

  lemma {:induction false} RuleEntitiesTagged(tag: Label, patterns: seq<string>, text: string, matchAll: (string, string) -> seq<string>)
    requires tag in {Person, EmployeeId, Asset, Email, NotificationType}
    ensures forall e :: e in RuleEntities(tag, patterns, text, matchAll) ==> WellTagged(e)
  {
    if patterns != [] {
      RuleEntitiesTagged(tag, patterns[..|patterns| - 1], text, matchAll);
    }
  }

  lemma {:induction false} PatternEntitiesTagged(rules: seq<EntityRule>, text: string, matchAll: (string, string) -> seq<string>)
    requires forall k :: 0 <= k < |rules| ==> rules[k].tag in {Person, EmployeeId, Asset, Email, NotificationType}
    ensures forall e :: e in PatternEntities(rules, text, matchAll) ==> WellTagged(e)
  {
    if rules != [] {
      var last := rules[|rules| - 1];
      PatternEntitiesTagged(rules[..|rules| - 1], text, matchAll);
      RuleEntitiesTagged(last.tag, last.patterns, text, matchAll);
    }
  }

  /** Confidences come only from {0.9 for PERSON, 0.8 for PLACE and ORGANIZATION, 0.7 for pattern matches}. */
  lemma RawEntitiesTagged(
    text: string, people: seq<string>, places: seq<string>, organizations: seq<string>,
    matchAll: (string, string) -> seq<string>)
    ensures forall e :: e in RawEntities(text, people, places, organizations, matchAll) ==> WellTagged(e)
  {
    PatternEntitiesTagged(EntityTable, text, matchAll);
  }

  /** `self.findIndex(e => same key)`: the first position holding `key`, or `|xs|`. */
  function FindKey(xs: seq<Entity>, key: (string, Label)): (i: nat)
    ensures i <= |xs|
    ensures i < |xs| ==> Key(xs[i]) == key
    ensures forall j :: 0 <= j < i ==> Key(xs[j]) != key
  {
    if xs == [] then 0
    else if Key(xs[0]) == key then 0
    else 1 + FindKey(xs[1..], key)
  }

  /** The `filter((entity, index, self) => index === self.findIndex(...))` over the first `n` positions. */
  function UniqueUpTo(xs: seq<Entity>, n: nat): seq<Entity>
    requires n <= |xs|
  {
    if n == 0 then []
    else UniqueUpTo(xs, n - 1) + (if FindKey(xs, Key(xs[n - 1])) == n - 1 then [xs[n - 1]] else [])
  }

  function Unique(xs: seq<Entity>): seq<Entity> {
    UniqueUpTo(xs, |xs|)
  }

  /** The keys of the first `n` entities. */
  function KeysBefore(xs: seq<Entity>, n: nat): set<(string, Label)>
    requires n <= |xs|
  {
    set i | 0 <= i < n :: Key(xs[i])
  }

  lemma KeysBeforeStep(xs: seq<Entity>, n: nat)
    requires 0 < n <= |xs|
    ensures KeysBefore(xs, n) == KeysBefore(xs, n - 1) + {Key(xs[n - 1])}
  {
    forall k | k in KeysBefore(xs, n) ensures k in KeysBefore(xs, n - 1) + {Key(xs[n - 1])} {
      var i :| 0 <= i < n && Key(xs[i]) == k;
      if i < n - 1 { assert Key(xs[i]) in KeysBefore(xs, n - 1); }
    }
    assert Key(xs[n - 1]) in KeysBefore(xs, n);
  }

  lemma SnocKeys(prev: seq<Entity>, x: Entity)
    ensures KeySet(prev + [x]) == KeySet(prev) + {Key(x)}
    ensures NoDuplicateKeys(prev) && Key(x) !in KeySet(prev) ==> NoDuplicateKeys(prev + [x])
  {
    var r := prev + [x];
    forall k | k in KeySet(r) ensures k in KeySet(prev) + {Key(x)} {
      var i :| 0 <= i < |r| && Key(r[i]) == k;
      if i < |prev| { assert r[i] == prev[i]; }
    }
    forall k | k in KeySet(prev) ensures k in KeySet(r) {
      var i :| 0 <= i < |prev| && Key(prev[i]) == k;
      assert r[i] == prev[i];
    }
    assert r[|r| - 1] == x;
    if NoDuplicateKeys(prev) && Key(x) !in KeySet(prev) {
      forall i, j | 0 <= i < j < |r| ensures Key(r[i]) != Key(r[j]) {
        assert r[i] == prev[i];
        if j == |r| - 1 {
          assert Key(prev[i]) in KeySet(prev);
        } else {
          assert r[j] == prev[j];
        }
      }
    }
  }

  lemma {:induction false} UniqueUpToSound(xs: seq<Entity>, n: nat)
    requires n <= |xs|
    ensures NoDuplicateKeys(UniqueUpTo(xs, n))
    ensures KeySet(UniqueUpTo(xs, n)) == KeysBefore(xs, n)
  {
    if n == 0 {
      assert KeysBefore(xs, 0) == {};
    } else {
      UniqueUpToSound(xs, n - 1);
      KeysBeforeStep(xs, n);
      var prev := UniqueUpTo(xs, n - 1);
      var x := xs[n - 1];
      var f := FindKey(xs, Key(x));
      if f == n - 1 {
        assert UniqueUpTo(xs, n) == prev + [x];
        assert forall i :: 0 <= i < n - 1 ==> Key(xs[i]) != Key(x);
        assert Key(x) !in KeysBefore(xs, n - 1);
        SnocKeys(prev, x);
      } else {
        assert UniqueUpTo(xs, n) == prev;
        assert Key(xs[f]) in KeysBefore(xs, n - 1);
      }
    }
  }

  lemma {:induction false} UniqueUpToFirst(xs: seq<Entity>, n: nat)
    requires n <= |xs|
    ensures forall e :: e in UniqueUpTo(xs, n) ==> exists i :: 0 <= i < n && xs[i] == e && FindKey(xs, Key(e)) == i
  {
    if n > 0 {
      UniqueUpToFirst(xs, n - 1);
      var prev := UniqueUpTo(xs, n - 1);
      var x := xs[n - 1];
      if FindKey(xs, Key(x)) == n - 1 {
        assert UniqueUpTo(xs, n) == prev + [x];
        forall e | e in prev + [x] ensures exists i :: 0 <= i < n && xs[i] == e && FindKey(xs, Key(e)) == i {
          if e !in prev { assert xs[n - 1] == e; }
        }
      } else {
        assert UniqueUpTo(xs, n) == prev;
      }
    }
  }

  /**
   * De-duplication: no two survivors share lower-cased text and label, every key of the
   * input survives, and each survivor is the first occurrence of its key.
   */
  lemma UniqueSound(xs: seq<Entity>)
    ensures NoDuplicateKeys(Unique(xs))
    ensures KeySet(Unique(xs)) == KeySet(xs)
    ensures forall e :: e in Unique(xs) ==> exists i :: 0 <= i < |xs| && xs[i] == e && FindKey(xs, Key(e)) == i
  {
    UniqueUpToSound(xs, |xs|);
    UniqueUpToFirst(xs, |xs|);
    assert KeysBefore(xs, |xs|) == KeySet(xs);
  }

  /** Insert `e` before the first element whose confidence is not above it. */
  function Insert(e: Entity, s: seq<Entity>): (r: seq<Entity>)
    ensures multiset(r) == multiset(s) + multiset{e}
  {
    if s == [] || s[0].confidence <= e.confidence then [e] + s
    else
      assert s == [s[0]] + s[1..];
      [s[0]] + Insert(e, s[1..])
  }

  /** `.sort((a, b) => b.confidence - a.confidence)`, as an insertion sort. */
  function SortByConfidence(xs: seq<Entity>): (r: seq<Entity>)
    ensures multiset(r) == multiset(xs)
  {
    if xs == [] then []
    else
      assert xs == [xs[0]] + xs[1..];
      Insert(xs[0], SortByConfidence(xs[1..]))
  }

  lemma {:induction false} InsertSorted(e: Entity, s: seq<Entity>)
    requires SortedByConfidence(s)
    ensures SortedByConfidence(Insert(e, s))
    ensures Insert(e, s) != [] && (Insert(e, s)[0] == e || (s != [] && Insert(e, s)[0] == s[0]))
  {
    if s != [] && s[0].confidence > e.confidence {
      InsertSorted(e, s[1..]);
      var r := Insert(e, s[1..]);
      forall j | 0 < j < |[s[0]] + r| ensures ([s[0]] + r)[j].confidence <= s[0].confidence {
        assert ([s[0]] + r)[j] in multiset(r);
        assert ([s[0]] + r)[j] in multiset(s[1..]) + multiset{e};
      }
    }
  }

  /** The sort yields non-increasing confidences and a permutation of its input. */
  lemma {:induction false} SortByConfidenceSorted(xs: seq<Entity>)
    ensures SortedByConfidence(SortByConfidence(xs))
    ensures multiset(SortByConfidence(xs)) == multiset(xs)
  {
    if xs != [] {
      SortByConfidenceSorted(xs[1..]);
      InsertSorted(xs[0], SortByConfidence(xs[1..]));
    }
  }

  lemma {:induction false} InsertKeys(e: Entity, s: seq<Entity>)
    requires NoDuplicateKeys(s) && Key(e) !in KeySet(s)
    ensures NoDuplicateKeys(Insert(e, s))
    ensures KeySet(Insert(e, s)) == KeySet(s) + {Key(e)}
  {
    if s == [] || s[0].confidence <= e.confidence {
      ConsKeys(e, s);
    } else {
      ConsKeys(s[0], s[1..]);
      InsertKeys(e, s[1..]);
      ConsKeys(s[0], Insert(e, s[1..]));
    }
  }

  lemma ConsKeys(x: Entity, t: seq<Entity>)
    ensures KeySet([x] + t) == KeySet(t) + {Key(x)}
    ensures NoDuplicateKeys([x] + t) <==> NoDuplicateKeys(t) && Key(x) !in KeySet(t)
  {
    var r := [x] + t;
    forall k | k in KeySet(r) ensures k in KeySet(t) + {Key(x)} {
      var i :| 0 <= i < |r| && Key(r[i]) == k;
      if i > 0 { assert r[i] == t[i - 1]; }
    }
    forall k | k in KeySet(t) ensures k in KeySet(r) {
      var i :| 0 <= i < |t| && Key(t[i]) == k;
      assert r[i + 1] == t[i];
    }
    assert Key(r[0]) in KeySet(r);
    if NoDuplicateKeys(r) {
      forall i, j | 0 <= i < j < |t| ensures Key(t[i]) != Key(t[j]) {
        assert r[i + 1] == t[i] && r[j + 1] == t[j];
      }
    }
    if Key(x) in KeySet(t) {
      var i :| 0 <= i < |t| && Key(t[i]) == Key(x);
      assert r[i + 1] == t[i];
      assert !NoDuplicateKeys(r);
    }
    if NoDuplicateKeys(t) && Key(x) !in KeySet(t) {
      forall i, j | 0 <= i < j < |r| ensures Key(r[i]) != Key(r[j]) {
        assert r[j] == t[j - 1];
        if i > 0 { assert r[i] == t[i - 1]; }
      }
    }
  }

  /** Sorting keeps the keys and their uniqueness. */
  lemma {:induction false} SortKeepsKeys(xs: seq<Entity>)
    requires NoDuplicateKeys(xs)
    ensures NoDuplicateKeys(SortByConfidence(xs))
    ensures KeySet(SortByConfidence(xs)) == KeySet(xs)
  {
    if xs != [] {
      ConsKeys(xs[0], xs[1..]);
      assert [xs[0]] + xs[1..] == xs;
      SortKeepsKeys(xs[1..]);
      InsertKeys(xs[0], SortByConfidence(xs[1..]));
    }
  }

  /** What de-duplicating and sorting guarantee about any list of extracted entities. */
  lemma EntityPipelineSound(raw: seq<Entity>)
    requires forall e :: e in raw ==> WellTagged(e)
    ensures NoDuplicateKeys(SortByConfidence(Unique(raw)))
    ensures SortedByConfidence(SortByConfidence(Unique(raw)))
    ensures KeySet(SortByConfidence(Unique(raw))) == KeySet(raw)
    ensures forall e :: e in SortByConfidence(Unique(raw)) ==> e in raw && WellTagged(e)
  {
    var unique := Unique(raw);
    UniqueSound(raw);
    SortByConfidenceSorted(unique);
    SortKeepsKeys(unique);
    forall e | e in SortByConfidence(unique) ensures e in raw && WellTagged(e) {
      assert e in multiset(SortByConfidence(unique));
      assert e in unique;
    }
  }

  lemma AppendAssociates(a: seq<Entity>, b: seq<Entity>, c: seq<Entity>)
    ensures (a + b) + c == a + (b + c)
  {
  }

  /** One more match extends the pushed entities by one. */
  lemma MatchEntitiesStep(matches: seq<string>, m: nat, tag: Label)
    requires m < |matches|
    ensures MatchEntities(matches[..m + 1], tag) == MatchEntities(matches[..m], tag) + [Entity(Trim(matches[m]), tag, PatternConfidence)]
  {
    var longer := MatchEntities(matches[..m + 1], tag);
    var shorter := MatchEntities(matches[..m], tag);
    forall k | 0 <= k < m ensures longer[k] == shorter[k] {
      assert matches[..m + 1][k] == matches[..m][k];
    }
    assert longer[m] == Entity(Trim(matches[m]), tag, PatternConfidence);
  }

  /** One more pattern extends a rule's entities by that pattern's matches. */
  lemma RuleEntitiesStep(tag: Label, patterns: seq<string>, p: nat, text: string, matchAll: (string, string) -> seq<string>)
    requires p < |patterns|
    ensures RuleEntities(tag, patterns[..p + 1], text, matchAll)
      == RuleEntities(tag, patterns[..p], text, matchAll) + MatchEntities(matchAll(patterns[p], text), tag)
  {
    var prefix := patterns[..p + 1];
    assert prefix[..p] == patterns[..p] && prefix[p] == patterns[p];
  }

  /** One more rule extends the table's entities by that rule's entities. */
  lemma PatternEntitiesStep(rules: seq<EntityRule>, k: nat, text: string, matchAll: (string, string) -> seq<string>)
    requires k < |rules|
    ensures PatternEntities(rules[..k + 1], text, matchAll)
      == PatternEntities(rules[..k], text, matchAll) + RuleEntities(rules[k].tag, rules[k].patterns, text, matchAll)
  {
    var prefix := rules[..k + 1];
    assert prefix[..k] == rules[..k] && prefix[k] == rules[k];
  }

  /** The `forEach` that pushes the library's texts with one label and confidence. */
  method PushTagged(entities: seq<Entity>, texts: seq<string>, tag: Label, confidence: nat)
    returns (r: seq<Entity>)
    ensures r == entities + Tagged(texts, tag, confidence)
  {
    r := entities;
    var k := 0;
    while k < |texts|
      invariant 0 <= k <= |texts|
      invariant r == entities + Tagged(texts[..k], tag, confidence)
    {
      r := r + [Entity(texts[k], tag, confidence)];
      k := k + 1;
    }
    assert texts[..k] == texts;
  }

  /** The innermost loop: push every match of one pattern, trimmed. */
  method PushMatches(entities: seq<Entity>, matches: seq<string>, tag: Label)
    returns (r: seq<Entity>)
    ensures r == entities + MatchEntities(matches, tag)
  {
    r := entities;
    var m := 0;
    while m < |matches|
      invariant 0 <= m <= |matches|
      invariant r == entities + MatchEntities(matches[..m], tag)
    {
      MatchEntitiesStep(matches, m, tag);
      r := r + [Entity(Trim(matches[m]), tag, PatternConfidence)];
      m := m + 1;
    }
    assert matches[..m] == matches;
  }

  /** The loop over the patterns of one label. */
  method PushRule(entities: seq<Entity>, rule: EntityRule, text: string, matchAll: (string, string) -> seq<string>)
    returns (r: seq<Entity>)
    ensures r == entities + RuleEntities(rule.tag, rule.patterns, text, matchAll)
  {
    r := entities;
    var p := 0;
    while p < |rule.patterns|
      invariant 0 <= p <= |rule.patterns|
      invariant r == entities + RuleEntities(rule.tag, rule.patterns[..p], text, matchAll)
    {
      RuleEntitiesStep(rule.tag, rule.patterns, p, text, matchAll);
      ghost var before := r;
      r := PushMatches(r, matchAll(rule.patterns[p], text), rule.tag);
      AppendAssociates(entities, RuleEntities(rule.tag, rule.patterns[..p], text, matchAll),
        MatchEntities(matchAll(rule.patterns[p], text), rule.tag));
      p := p + 1;
    }
    assert rule.patterns[..p] == rule.patterns;
  }

  /** The loop over the entity-pattern table. */
  method PushPatterns(entities: seq<Entity>, rules: seq<EntityRule>, text: string, matchAll: (string, string) -> seq<string>)
    returns (r: seq<Entity>)
    ensures r == entities + PatternEntities(rules, text, matchAll)
  {
    r := entities;
    var k := 0;
    while k < |rules|
      invariant 0 <= k <= |rules|
      invariant r == entities + PatternEntities(rules[..k], text, matchAll)
    {
      PatternEntitiesStep(rules, k, text, matchAll);
      r := PushRule(r, rules[k], text, matchAll);
      AppendAssociates(entities, PatternEntities(rules[..k], text, matchAll),
        RuleEntities(rules[k].tag, rules[k].patterns, text, matchAll));
      k := k + 1;
    }
    assert rules[..k] == rules;
  }

  /**
   * `extractEntities`: pushes the library's people, places and organizations, then every
   * match of every entity pattern (trimmed), then de-duplicates and sorts by confidence.
   */
  method ExtractEntities(
    text: string, people: seq<string>, places: seq<string>, organizations: seq<string>,
    matchAll: (string, string) -> seq<string>)
    returns (result: seq<Entity>)
    ensures result == SortByConfidence(Unique(RawEntities(text, people, places, organizations, matchAll)))
    ensures NoDuplicateKeys(result)
    ensures SortedByConfidence(result)
    ensures KeySet(result) == KeySet(RawEntities(text, people, places, organizations, matchAll))
    ensures forall e :: e in result ==> e in RawEntities(text, people, places, organizations, matchAll) && WellTagged(e)
  {
    var entities := PushTagged([], people, Person, PersonConfidence);
    assert entities == Tagged(people, Person, PersonConfidence);
    entities := PushTagged(entities, places, Place, PlaceConfidence);
    entities := PushTagged(entities, organizations, Organization, PlaceConfidence);
    entities := PushPatterns(entities, EntityTable, text, matchAll);
    ghost var raw := RawEntities(text, people, places, organizations, matchAll);
    assert entities == raw;
    RawEntitiesTagged(text, people, places, organizations, matchAll);
    EntityPipelineSound(raw);
    result := SortByConfidence(Unique(entities));
  }

  // ---------------------------------------------------------------------------
  // Confidence and explanations
  // ---------------------------------------------------------------------------

  /** The entity labels that raise confidence for each intent; intents not listed get none. */
  function RelevantLabels(intent: Intent): set<Label> {
    match intent
    case CreateEmployee => {Person, Email}
    case AllocateAsset => {EmployeeId, Asset}
    case GetEmployeeStatus => {EmployeeId}
    case SendNotification => {NotificationType, EmployeeId}
    case _ => {}
  }

  /** Number of the entities whose label is in `labels`. */
  function CountLabelled(entities: seq<Entity>, labels: set<Label>): (n: nat)
    ensures n <= |entities|
  {
    if entities == [] then 0
    else (if entities[0].tag in labels then 1 else 0) + CountLabelled(entities[1..], labels)
  }

  /** min(0.2 × relevant entities, 0.4), in tenths. */
  function EntityBonus(intent: Intent, entities: seq<Entity>): nat {
    var n := CountLabelled(entities, RelevantLabels(intent));
    if n > 0 then (if 2 * n < 4 then 2 * n else 4) else 0
  }

  /** 0.1 for a text longer than 10 and shorter than 200 UTF-16 code units, in tenths. */
  function LengthBonus(text: string): nat {
    if 10 < Utf16Length(text) < 200 then 1 else 0
  }

  /** Nine letters and one emoji make eleven code units, which earns the bonus. */
  lemma LengthCountsCodeUnits()
    ensures |"abcdefghi\U{1F600}"| == 10
    ensures LengthBonus("abcdefghi\U{1F600}") == 1
  {
    var t := "abcdefghi\U{1F600}";
    assert t[1..] == "bcdefghi\U{1F600}";
    assert Utf16Length("\U{1F600}") == 2;
  }

  /** `calculateConfidence`, in tenths and clamped to 10. */
  function CalculateConfidence(intent: Intent, entities: seq<Entity>, text: string): (c: nat)
    ensures c <= 10
    ensures intent != Unknown ==> 5 <= c
    ensures intent == Unknown ==> c == LengthBonus(text) && c <= 1
  {
    var base := if intent != Unknown then 5 + EntityBonus(intent, entities) else 0;
    var total := base + LengthBonus(text);
    if total < 10 then total else 10
  }

  /** The clamp never bites: the three contributions add up to at most 1.0. */
  lemma ConfidenceUnclamped(intent: Intent, entities: seq<Entity>, text: string)
    ensures CalculateConfidence(intent, entities, text) ==
      (if intent != Unknown then 5 + EntityBonus(intent, entities) else 0) + LengthBonus(text)
  {
  }

  /** GET_ASSETS and GET_EMPLOYEES never receive an entity bonus. */
  lemma NoBonusForListings(entities: seq<Entity>, text: string)
    ensures CalculateConfidence(GetAssets, entities, text) == 5 + LengthBonus(text)
    ensures CalculateConfidence(GetEmployees, entities, text) == 5 + LengthBonus(text)
  {
    NoRelevantLabels(entities);
  }

  lemma {:induction false} NoRelevantLabels(entities: seq<Entity>)
    ensures CountLabelled(entities, {}) == 0
  {
    if entities != [] {
      NoRelevantLabels(entities[1..]);
    }
  }

  /** Entities with a label the intent does not map are ignored by the bonus. */
  lemma {:induction false} BonusIgnoresIrrelevant(intent: Intent, entities: seq<Entity>, extra: Entity)
    requires extra.tag !in RelevantLabels(intent)
    ensures EntityBonus(intent, [extra] + entities) == EntityBonus(intent, entities)
  {
    assert ([extra] + entities)[1..] == entities;
  }

  /** The bonus is min(0.2 × n, 0.4) for n relevant entities, counted over the whole list. */
  lemma {:induction false} BonusCountsRelevant(intent: Intent, a: seq<Entity>, b: seq<Entity>)
    ensures CountLabelled(a + b, RelevantLabels(intent)) ==
      CountLabelled(a, RelevantLabels(intent)) + CountLabelled(b, RelevantLabels(intent))
  {
    if a == [] {
      assert a + b == b;
    } else {
      assert (a + b)[0] == a[0];
      assert (a + b)[1..] == a[1..] + b;
      BonusCountsRelevant(intent, a[1..], b);
    }
  }

  /** The explanation table; every intent name has its own entry. */
  const Explanations: map<string, string> := map[
    "CREATE_EMPLOYEE" := "I can help you create a new employee record",
    "ALLOCATE_ASSET" := "I can assign assets like laptops, phones, or equipment to employees",
    "GET_ASSETS" := "I can show you available assets and inventory",
    "GET_EMPLOYEE_STATUS" := "I can check the onboarding status of employees",
    "SEND_NOTIFICATION" := "I can send notifications and messages to employees",
    "GET_EMPLOYEES" := "I can list employees and their information",
    "UNKNOWN" := "I'm not sure what you're asking for. Could you be more specific?"
  ]

  /** What `explanations[intent] || explanations.UNKNOWN` yields as written: a string or an inherited member. */
  datatype ExplanationValue = Text(text: string) | InheritedMember(name: string)

  /** `getIntentExplanation` as written: the object literal lookup also finds `Object.prototype` members. */
  function ExplanationAsWritten(key: string): ExplanationValue {
    match JsObject.Lookup(Explanations, key)
    case Own(s) => if s != "" then Text(s) else Text(Explanations["UNKNOWN"])
    case Inherited(name) => InheritedMember(name)
    case Undefined => Text(Explanations["UNKNOWN"])
  }

  /** A key such as "toString" makes the as-written lookup return a function, not the UNKNOWN text. */
  lemma ExplanationInheritedKey()
    ensures ExplanationAsWritten("toString") == InheritedMember("toString")
    ensures ExplanationAsWritten("constructor").InheritedMember?
  {
  }

  /** `getIntentExplanation` with the lookup restricted to the table's own keys. */
  function IntentExplanation(key: string): (r: string)
    ensures r != ""
    ensures key in Explanations ==> r == Explanations[key]
    ensures key !in Explanations ==> r == Explanations["UNKNOWN"]
  {
    if key in Explanations && Explanations[key] != "" then Explanations[key] else Explanations["UNKNOWN"]
  }

  /**
   * Every one of the seven labels has its own non-empty explanation, different from the
   * UNKNOWN text except for UNKNOWN itself, and the corrected lookup agrees with the
   * as-written one on every key that is not an `Object.prototype` member.
   */
  lemma ExplanationsTotal(key: string)
    ensures forall i: Intent :: IntentExplanation(IntentName(i)) != ""
    ensures forall i: Intent :: i != Unknown ==> IntentExplanation(IntentName(i)) != IntentExplanation("UNKNOWN")
    ensures key !in JsObject.ObjectPrototypeKeys ==> ExplanationAsWritten(key) == Text(IntentExplanation(key))
  {
  }

  // ---------------------------------------------------------------------------
  // Key phrases and the whole pipeline
  // ---------------------------------------------------------------------------

  datatype PhraseKind = NounPhrase | Verb | Adjective

  datatype KeyPhrase = KeyPhrase(text: string, kind: PhraseKind)

  function Phrases(texts: seq<string>, kind: PhraseKind): (r: seq<KeyPhrase>)
    ensures |r| == |texts|
    ensures forall k :: 0 <= k < |texts| ==> r[k] == KeyPhrase(texts[k], kind)
  {
    seq(|texts|, k requires 0 <= k < |texts| => KeyPhrase(texts[k], kind))
  }

  /** `extractKeyPhrases`: nouns, then verbs, then adjectives, cut to the first ten. */
  function KeyPhrases(nouns: seq<string>, verbs: seq<string>, adjectives: seq<string>): (r: seq<KeyPhrase>)
    ensures |r| == if |nouns| + |verbs| + |adjectives| < 10 then |nouns| + |verbs| + |adjectives| else 10
    ensures r <= Phrases(nouns, NounPhrase) + Phrases(verbs, Verb) + Phrases(adjectives, Adjective)
  {
    var all := Phrases(nouns, NounPhrase) + Phrases(verbs, Verb) + Phrases(adjectives, Adjective);
    if |all| <= 10 then all else all[..10]
  }

  datatype Sentiment = Sentiment(score: int, comparative: real)

  /** What the natural-language and sentiment libraries report for one text. */
  datatype LinguisticFeatures = LinguisticFeatures(
    people: seq<string>, places: seq<string>, organizations: seq<string>,
    nouns: seq<string>, verbs: seq<string>, adjectives: seq<string>,
    sentiment: Sentiment)

  datatype Classification = Classification(
    originalText: string,
    tokens: seq<string>,
    cleanedTokens: seq<string>,
    entities: seq<Entity>,
    intent: Intent,
    confidence: nat,
    sentiment: Sentiment,
    keyPhrases: seq<KeyPhrase>,
    error: Option<string>)

  /** The degraded result `processText` returns when the libraries throw. */
  function Fallback(text: string, message: string): (r: Classification)
    ensures r.intent == Unknown && r.confidence == 0
    ensures r.tokens == [] && r.cleanedTokens == [] && r.entities == [] && r.keyPhrases == []
    ensures r.originalText == text && r.error == Some(message)
  {
    Classification(text, [], [], [], Unknown, 0, Sentiment(0, 0.0), [], Some(message))
  }

  /**
   * `processText`: the whole pipeline. `features` is what the libraries produce, or the
   * message of the error they throw, in which case the result is the fallback.
   */
  method ProcessText(
    text: string, stopwords: set<string>, features: Result<LinguisticFeatures, string>,
    test: (string, string) -> bool, matchAll: (string, string) -> seq<string>)
    returns (r: Classification)
    ensures r.originalText == text && r.confidence <= 10
    ensures features.Failure? ==> r == Fallback(text, features.error)
    ensures features.Success? ==>
      && r.error.None?
      && r.tokens == Tokenize(text)
      && r.cleanedTokens == RemoveStopwords(r.tokens, stopwords)
      && (forall k :: 0 <= k < |r.tokens| ==> IsToken(r.tokens[k]) && Contains(ToLower(text), r.tokens[k]))
      && NoDuplicateKeys(r.entities) && SortedByConfidence(r.entities)
      && (forall e :: e in r.entities ==> WellTagged(e))
      && r.confidence == CalculateConfidence(r.intent, r.entities, text)
      && (r.intent == Unknown <==> forall j :: 0 <= j < |IntentTable| ==> Scores(text, r.cleanedTokens, test)[j] == 0)
      && (r.intent != Unknown ==>
            exists k :: FirstBest(Scores(text, r.cleanedTokens, test), k) && IntentTable[k].intent == r.intent)
      && r.entities == SortByConfidence(Unique(RawEntities(
           text, features.value.people, features.value.places, features.value.organizations, matchAll)))
      && r.keyPhrases == KeyPhrases(features.value.nouns, features.value.verbs, features.value.adjectives)
      && |r.keyPhrases| <= 10
      && r.sentiment == features.value.sentiment
  {
    if features.Failure? {
      return Fallback(text, features.error);
    }
    var f := features.value;
    var tokens := Tokenize(text);
    TokenizeSound(text);
    var cleanedTokens := RemoveStopwords(tokens, stopwords);
    var entities := ExtractEntities(text, f.people, f.places, f.organizations, matchAll);
    var intent := ClassifyIntent(text, cleanedTokens, test);
    var keyPhrases := KeyPhrases(f.nouns, f.verbs, f.adjectives);
    r := Classification(text, tokens, cleanedTokens, entities, intent,
      CalculateConfidence(intent, entities, text), f.sentiment, keyPhrases, None);
  }
}
