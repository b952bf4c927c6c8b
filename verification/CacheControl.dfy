/** How long an HTTP response may be reused: client metadata documents (src/cimd.rs) and the upstream
    key set (src/google.rs). */
module CacheControl {
  import opened Prelude

  // ---- header text; all of it is visible ASCII, spaces and tabs ----

  /** One more character in front: it joins the first piece, or separates a new one. */
  function Push(c: char, separator: char, pieces: seq<string>): (pushed: seq<string>)
    requires pieces != []
    ensures pushed != []
  {
    if c == separator then [""] + pieces else [[c] + pieces[0]] + pieces[1..]
  }

  function SplitOn(text: string, separator: char): (pieces: seq<string>)
    ensures pieces != []
  {
    if text == [] then [""] else Push(text[0], separator, SplitOn(text[1..], separator))
  }

  predicate IsBlank(c: char) {
    c == ' ' || c == '\t'
  }

  function Trim(text: string): string
    decreases |text|
  {
    if text != [] && IsBlank(text[0]) then Trim(text[1..])
    else if text != [] && IsBlank(text[|text| - 1]) then Trim(text[..|text| - 1])
    else text
  }

  function Lower(text: string): string {
    if text == [] then []
    else [if 'A' <= text[0] <= 'Z' then text[0] - 'A' + 'a' else text[0]] + Lower(text[1..])
  }

  /** `split_once`: at the first separator, if there is one. */
  function Cut(text: string, separator: char): Option<(string, string)> {
    if text == [] then None
    else if text[0] == separator then Some(("", text[1..]))
    else
      match Cut(text[1..], separator)
      case None => None
      case Some((left, right)) => Some(([text[0]] + left, right))
  }

  const U64_LIMIT: nat := 0x1_0000_0000_0000_0000

  /** Parsing an unsigned 64-bit number: an optional plus sign, digits, no overflow. */
  function ParseU64(text: string): (n: Option<nat>)
    ensures n.Some? ==> n.value < U64_LIMIT
  {
    var digits := if text != [] && text[0] == '+' then text[1..] else text;
    if digits == [] || !AllDigits(digits) || Decimal(digits) >= U64_LIMIT then None
    else Some(Decimal(digits))
  }

  // ---- metadata documents: every directive counts ----

  /** What one directive says: nothing may be cached, an age limit, or nothing of interest. */
  datatype Reading = Refuses | MaxAge(seconds: nat) | Inert

  predicate IsNameChar(c: char) {
    'a' <= c <= 'z' || 'A' <= c <= 'Z' || IsDigit(c) || c == '-'
  }

  predicate ValidName(name: string) {
    name != [] && forall c | c in name :: IsNameChar(c)
  }

  function Unquoted(value: string): string {
    if |value| >= 2 && value[0] == '"' && value[|value| - 1] == '"' then value[1..|value| - 1] else value
  }

  predicate ValidValue(value: string) {
    value != [] && forall c | c in value :: '!' <= c <= '~' && c != '"'
  }

  function Read(directive: string): Reading {
    if directive == [] || ';' in directive then Refuses
    else
      var cut := Cut(directive, '=');
      var name := if cut.None? then directive else Trim(cut.value.0);
      var value := if cut.None? then None else Some(Unquoted(Trim(cut.value.1)));
      if !ValidName(name) || Lower(name) in {"no-store", "no-cache", "private"} then Refuses
      else if value.Some? && !ValidValue(value.value) then Refuses
      else if Lower(name) == "max-age" then
        if value.None? || ParseU64(value.value).None? then Refuses else MaxAge(ParseU64(value.value).value)
      else Inert
  }

  function TrimAll(pieces: seq<string>): seq<string> {
    if pieces == [] then [] else [Trim(pieces[0])] + TrimAll(pieces[1..])
  }

  /** The directives of all header fields, in order. */
  function Directives(fields: seq<string>): seq<string> {
    if fields == [] then [] else TrimAll(SplitOn(fields[0], ',')) + Directives(fields[1..])
  }

  const MAX_CACHE_TTL: nat := 300

  function ReadAll(directives: seq<string>): (r: seq<Reading>)
    ensures |r| == |directives| && forall i | 0 <= i < |r| :: r[i] == Read(directives[i])
  {
    seq(|directives|, i requires 0 <= i < |directives| => Read(directives[i]))
  }

  /** The least age limit. */
  function Least(readings: seq<Reading>): Option<nat> {
    if readings == [] then None
    else
      var before := Least(readings[..|readings| - 1]);
      match readings[|readings| - 1]
      case MaxAge(n) => Some(if before.Some? && before.value < n then before.value else n)
      case _ => before
  }

  function Remaining(limit: Option<nat>, age: nat): Option<nat> {
    if limit.None? || Min(limit.value, MAX_CACHE_TTL) <= age then None else Some(Min(limit.value, MAX_CACHE_TTL) - age)
  }

  function Ttl(readings: seq<Reading>, age: nat): Option<nat> {
    if Refuses in readings then None else Remaining(Least(readings), age)
  }

  /** The seconds a response may be reused; `fields` is None if a header is not readable text. */
  method CacheTtl(fields: Option<seq<string>>, age: nat) returns (ttl: Option<nat>)
    ensures ttl == if fields.None? then None else Ttl(ReadAll(Directives(fields.value)), age)
  {
    hide Read, Directives, Remaining;
    if fields.None? {
      return None;
    }
    var directives := Directives(fields.value);
    ghost var readings := ReadAll(directives);
    var maximumAge := None;
    for i := 0 to |directives|
      invariant Refuses !in readings[..i]
      invariant maximumAge == Least(readings[..i])
    {
      assert readings[..i + 1][..i] == readings[..i];
      match Read(directives[i]) {
        case Refuses =>
          assert readings[i] in readings;
          return None;
        case MaxAge(seconds) =>
          maximumAge := Some(if maximumAge.Some? && maximumAge.value < seconds then maximumAge.value else seconds);
        case Inert =>
      }
    }
    assert readings[..|directives|] == readings;
    return Remaining(maximumAge, age);
  }

  lemma {:induction false} LeastIsAMinimum(readings: seq<Reading>)
    ensures Least(readings).None? <==> forall n: nat :: MaxAge(n) !in readings
    ensures Least(readings).Some? ==>
              MaxAge(Least(readings).value) in readings && forall n: nat | MaxAge(n) in readings ::
                Least(readings).value <= n
  {
    if readings != [] {
      var front, last := readings[..|readings| - 1], readings[|readings| - 1];
      LeastIsAMinimum(front);
      assert readings == front + [last];
    }
  }

  /** A response may be reused exactly if no directive refuses, some directive limits its age, and
      the least limit, capped at five minutes, exceeds its age; and then for the difference. */
  lemma TtlIsExact(readings: seq<Reading>, age: nat, ttl: nat)
    ensures Ttl(readings, age) == Some(ttl) <==>
            && Refuses !in readings
            && 0 < ttl <= MAX_CACHE_TTL
            && exists n: nat :: && MaxAge(n) in readings
                                && (forall m: nat | MaxAge(m) in readings :: n <= m)
                                && ttl + age == Min(n, MAX_CACHE_TTL)
  {
    LeastIsAMinimum(readings);
  }

  lemma SameReadings(a: seq<string>, b: seq<string>)
    requires forall d :: d in a ==> d in b
    ensures forall r :: r in ReadAll(a) ==> r in ReadAll(b)
  {
    var ra, rb := ReadAll(a), ReadAll(b);
    forall r | r in ra ensures r in rb {
      var i :| 0 <= i < |ra| && ra[i] == r;
      assert a[i] in b;
      var j :| 0 <= j < |b| && b[j] == a[i];
      assert rb[j] == r;
    }
  }

  lemma TtlLooksAtMembers(a: seq<Reading>, b: seq<Reading>, age: nat)
    requires forall r :: r in a <==> r in b
    ensures Ttl(a, age) == Ttl(b, age)
  {
    LeastIsAMinimum(a);
    LeastIsAMinimum(b);
  }

  /** Two headers with the same directives allow the same: order, repetition and the grouping of
      directives into fields are immaterial. */
  lemma HeaderLayoutIsImmaterial(a: seq<string>, b: seq<string>, age: nat)
    requires forall d :: d in Directives(a) <==> d in Directives(b)
    ensures Ttl(ReadAll(Directives(a)), age) == Ttl(ReadAll(Directives(b)), age)
  {
    hide Directives, Read, ReadAll, Ttl;
    SameReadings(Directives(a), Directives(b));
    SameReadings(Directives(b), Directives(a));
    TtlLooksAtMembers(ReadAll(Directives(a)), ReadAll(Directives(b)), age);
  }

  lemma PushOntoBoth(c: char, left: seq<string>, right: seq<string>)
    requires left != []
    ensures Push(c, ',', left + right) == Push(c, ',', left) + right
  {
    assert (left + right)[0] == left[0] && (left + right)[1..] == left[1..] + right;
  }

  lemma {:induction false} SplitOfJoined(x: string, y: string)
    ensures SplitOn(x + [','] + y, ',') == SplitOn(x, ',') + SplitOn(y, ',')
  {
    var joined := x + [','] + y;
    if x == [] {
      assert joined[0] == ',' && joined[1..] == y;
    } else {
      hide Push;
      SplitOfJoined(x[1..], y);
      assert joined[0] == x[0] && joined[1..] == x[1..] + [','] + y;
      PushOntoBoth(x[0], SplitOn(x[1..], ','), SplitOn(y, ','));
    }
  }

  lemma {:induction false} TrimAllOfJoined(a: seq<string>, b: seq<string>)
    ensures TrimAll(a + b) == TrimAll(a) + TrimAll(b)
  {
    if a == [] {
      assert a + b == b;
    } else {
      TrimAllOfJoined(a[1..], b);
      assert (a + b)[1..] == a[1..] + b;
    }
  }

  /** A field that joins two with a comma has the directives of both, wherever it stands. */
  lemma {:induction false} JoinedFieldsReadAlike(before: seq<string>, x: string, y: string, rest: seq<string>)
    ensures Directives(before + [x + [','] + y] + rest) == Directives(before + [x, y] + rest)
  {
    if before == [] {
      SplitOfJoined(x, y);
      TrimAllOfJoined(SplitOn(x, ','), SplitOn(y, ','));
      assert ([x, y] + rest)[1..] == [y] + rest;
      assert ([x + [','] + y] + rest)[1..] == rest && ([y] + rest)[1..] == rest;
      assert before + [x + [','] + y] + rest == [x + [','] + y] + rest && before + [x, y] + rest == [x, y] + rest;
    } else {
      JoinedFieldsReadAlike(before[1..], x, y, rest);
      assert (before + [x + [','] + y] + rest)[1..] == before[1..] + [x + [','] + y] + rest;
      assert (before + [x, y] + rest)[1..] == before[1..] + [x, y] + rest;
    }
  }

  // ---- what single directives say ----

  lemma {:induction false} LowerKeepsLength(text: string, k: nat)
    requires k < |text|
    ensures |Lower(text)| == |text|
    ensures Lower(text)[k] ==
            if 'A' <= text[k] <= 'Z' then (text[k] as int - 'A' as int + 'a' as int) as char else text[k]
  {
    if |text| == 1 {
      assert Lower(text[1..]) == [];
    } else {
      LowerKeepsLength(text[1..], if k == 0 then 0 else k - 1);
    }
  }

  lemma {:induction false} CutAtFirst(left: string, right: string)
    requires '=' !in left
    ensures Cut(left + ['='] + right, '=') == Some((left, right))
  {
    var text := left + ['='] + right;
    if left == [] {
      assert text[0] == '=' && text[1..] == right;
    } else {
      CutAtFirst(left[1..], right);
      assert text[0] == left[0] && text[1..] == left[1..] + ['='] + right;
      assert left == [left[0]] + left[1..];
    }
  }

  lemma {:induction false} NothingToCut(text: string)
    requires '=' !in text
    ensures Cut(text, '=').None?
  {
    if text != [] {
      NothingToCut(text[1..]);
    }
  }

  lemma NothingToTrim(text: string)
    requires text != [] ==> !IsBlank(text[0]) && !IsBlank(text[|text| - 1])
    ensures Trim(text) == text
  {
  }

  /** Letters, digits and hyphens. */
  predicate IsName(name: string) {
    name != [] && forall c | c in name :: 'a' <= c <= 'z' || 'A' <= c <= 'Z' || '0' <= c <= '9' || c == '-'
  }

  /** A directive without a value refuses exactly if it is one of the three that forbid caching, or an age
      limit that states none. */
  lemma NamesAreReadExactly(name: string)
    requires IsName(name)
    ensures Read(name) == if Lower(name) in {"no-store", "no-cache", "private", "max-age"} then Refuses else Inert
  {
    hide Lower;
    NothingToCut(name);
    assert ';' !in name;
  }

  /** A directive with a plain value refuses exactly if it is one of the three, or an age limit that is not a
      number of 64 bits; an age limit says its number; anything else is of no interest. */
  lemma ValuesAreReadExactly(name: string, value: string)
    requires IsName(name) && value != [] && forall c | c in value :: '!' <= c <= '~' && c != '"' && c != ';'
    ensures Read(name + ['='] + value) ==
            if Lower(name) in {"no-store", "no-cache", "private"} then Refuses
            else if Lower(name) != "max-age" then Inert
            else if ParseU64(value).Some? then MaxAge(ParseU64(value).value)
            else Refuses
  {
    hide Lower, ParseU64, Cut, Trim;
    var directive := name + ['='] + value;
    CutAtFirst(name, value);
    assert name[0] in name && name[|name| - 1] in name && value[0] in value && value[|value| - 1] in value;
    NothingToTrim(name);
    NothingToTrim(value);
    assert ';' !in directive;
  }

  /** A quoted value reads like the plain one. */
  lemma QuotedValuesReadAlike(name: string, value: string)
    requires IsName(name) && value != [] && forall c | c in value :: '!' <= c <= '~' && c != '"' && c != ';'
    ensures Read(name + ['='] + (['"'] + value + ['"'])) == Read(name + ['='] + value)
  {
    hide Lower, ParseU64, Cut, Trim;
    var quoted := ['"'] + value + ['"'];
    CutAtFirst(name, value);
    CutAtFirst(name, quoted);
    assert name[0] in name && name[|name| - 1] in name && value[0] in value && value[|value| - 1] in value;
    NothingToTrim(name);
    NothingToTrim(value);
    NothingToTrim(quoted);
    assert quoted[1..|quoted| - 1] == value;
    assert Unquoted(quoted) == value && Unquoted(value) == value;
    assert ';' !in name + ['='] + value && ';' !in name + ['='] + quoted;
  }

  /** Nothing and anything with a semicolon refuse. */
  lemma MalformedDirectivesRefuse(directive: string)
    requires directive == [] || ';' in directive
    ensures Read(directive) == Refuses
  {
  }

  /** A number of 64 bits is read as what its digits say. */
  lemma NumbersAreReadExactly(digits: string)
    requires digits != [] && AllDigits(digits)
    ensures ParseU64(digits) == if Decimal(digits) <= 18_446_744_073_709_551_615 then Some(Decimal(digits)) else None
  {
  }

  lemma {:induction false} PlainTextIsOnePiece(text: string)
    requires ',' !in text
    ensures SplitOn(text, ',') == [text]
  {
    if text != [] {
      PlainTextIsOnePiece(text[1..]);
      assert text[0] in text && text == [text[0]] + text[1..];
    }
  }

  // ---- the upstream key set: the first age limit counts ----

  const MAX_CACHE_AGE: nat := 3600

  function AgeLimit(directive: string): Option<nat> {
    var text := Lower(Trim(directive));
    if "max-age=" <= text then ParseU64(text[|"max-age="|..]) else None
  }

  function FirstAgeLimit(directives: seq<string>): nat {
    if directives == [] then 0
    else if AgeLimit(directives[0]).Some? then AgeLimit(directives[0]).value
    else FirstAgeLimit(directives[1..])
  }

  predicate ForbidsReuse(directive: string) {
    Lower(Trim(directive)) in {"no-cache", "no-store"}
  }

  /** `control` is the first Cache-Control field and `age` the Age field, where present and readable. */
  function CacheFreshness(control: string, age: string): (seconds: nat)
    ensures seconds <= MAX_CACHE_AGE
  {
    var directives := SplitOn(control, ',');
    if exists d | d in directives :: ForbidsReuse(d) then 0
    else
      var limit := Min(FirstAgeLimit(directives), MAX_CACHE_AGE);
      var spent := ParseU64(age).GetOr(0);
      if limit > spent then limit - spent else 0
  }

  /** `directives[k]` is the first one with a readable age limit. */
  predicate StatesFirst(directives: seq<string>, k: int) {
    0 <= k < |directives| && AgeLimit(directives[k]).Some? && forall j | 0 <= j < k :: AgeLimit(directives[j]).None?
  }

  lemma {:induction false} FirstAgeLimitIsStated(directives: seq<string>) returns (k: nat)
    requires FirstAgeLimit(directives) > 0
    ensures StatesFirst(directives, k) && AgeLimit(directives[k]).value == FirstAgeLimit(directives)
  {
    if AgeLimit(directives[0]).Some? {
      return 0;
    }
    k := FirstAgeLimitIsStated(directives[1..]);
    k := k + 1;
    forall j | 0 <= j < k ensures AgeLimit(directives[j]).None? {
      assert j > 0 ==> directives[j] == directives[1..][j - 1];
    }
  }

  lemma {:induction false} FirstAgeLimitIsFirst(directives: seq<string>, k: nat)
    requires StatesFirst(directives, k)
    ensures FirstAgeLimit(directives) == AgeLimit(directives[k]).value
  {
    if k > 0 {
      assert AgeLimit(directives[0]).None?;
      FirstAgeLimitIsFirst(directives[1..], k - 1);
    }
  }

  lemma {:induction false} NothingToLower(text: string)
    requires forall c | c in text :: !('A' <= c <= 'Z')
    ensures Lower(text) == text
  {
    if text != [] {
      assert forall c | c in text[1..] :: c in text;
      NothingToLower(text[1..]);
      assert text[0] in text && text == [text[0]] + text[1..];
    }
  }

  /** An age limit states its number, in whatever place of the list; other directives state none. */
  lemma AgeLimitsAreReadExactly(text: string)
    requires text != [] && forall c | c in text :: !('A' <= c <= 'Z') && !IsBlank(c)
    ensures AgeLimit(text) == (if "max-age=" <= text then ParseU64(text[8..]) else None)
    ensures AgeLimit([' '] + text) == AgeLimit(text)
    ensures ForbidsReuse(text) <==> text == "no-cache" || text == "no-store"
    ensures ForbidsReuse([' '] + text) <==> ForbidsReuse(text)
  {
    hide ParseU64;
    assert text[0] in text && text[|text| - 1] in text;
    NothingToTrim(text);
    NothingToLower(text);
    assert ([' '] + text)[1..] == text;
    assert Trim([' '] + text) == Trim(text);
  }

  /** A key set may be reused for exactly this long: no directive forbids it, and the first limit
      stated, capped at an hour, exceeds the age reported by the difference. */
  lemma FreshnessIsExact(control: string, age: string, seconds: nat)
    requires seconds > 0
    ensures var directives := SplitOn(control, ',');
            CacheFreshness(control, age) == seconds <==>
            && (forall d | d in directives :: !ForbidsReuse(d))
            && exists k: nat :: && StatesFirst(directives, k)
                                && seconds + ParseU64(age).GetOr(0) == Min(AgeLimit(directives[k]).value, MAX_CACHE_AGE)
  {
    hide AgeLimit, ForbidsReuse, SplitOn, ParseU64;
    var directives := SplitOn(control, ',');
    if CacheFreshness(control, age) == seconds {
      var k := FirstAgeLimitIsStated(directives);
    }
    forall k: nat | StatesFirst(directives, k) ensures FirstAgeLimit(directives) == AgeLimit(directives[k]).value {
      FirstAgeLimitIsFirst(directives, k);
    }
  }
}
