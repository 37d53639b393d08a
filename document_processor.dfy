/** The document processor: keyword classification of chunks, detection of
    technical vocabulary, recognition of resume section headers, the key
    facts extracted from a document, the skills preview, and the metadata
    stamped on every chunk. PDF extraction, the regex clean-up and the
    text splitter are collaborators outside the model; the splitter is a
    parameter. */
module DocumentProcessor {
  import opened Wrappers
  import opened Strings
  import opened PyValues

  // ---------------------------------------------------------------------
  // Chunk classification (`get_section_for_chunk`)

  const SkillsTerms: seq<string> :=
    ["docker", "kubernetes", "aws", "python", "javascript", "react", "node", "programming", "development"]
  const EducationTerms: seq<string> := ["university", "degree", "bachelor", "master", "phd", "education"]
  const ExperienceTerms: seq<string> := ["worked", "company", "position", "role", "responsibilities"]
  const ProjectTerms: seq<string> := ["project", "built", "developed", "created", "implemented"]

  /** The resume sections both classifiers speak of: the eight header
      sections, of which four double as chunk sections, and the fallback
      "general" of chunk classification. */
  datatype Section =
    | Contact | Summary | Experience | Education | Skills | Projects | Certifications | Awards
    | General
  {
    /** The string stored for the section, as a dict key or as
        `section_type`. */
    function Name(): string {
      match this
      case Contact => "contact"
      case Summary => "summary"
      case Experience => "experience"
      case Education => "education"
      case Skills => "skills"
      case Projects => "projects"
      case Certifications => "certifications"
      case Awards => "awards"
      case General => "general"
    }

    /** The keywords `get_section_for_chunk` looks for. */
    function ChunkTerms(): seq<string> {
      match this
      case Skills => SkillsTerms
      case Education => EducationTerms
      case Experience => ExperienceTerms
      case Projects => ProjectTerms
      case _ => []
    }
  }

  /** The keyword sections, highest priority first. */
  const Priority: seq<Section> := [Skills, Education, Experience, Projects]

  /** The lowercased chunk mentions one of the section's keywords. */
  predicate Mentions(lower: string, section: Section) {
    ContainsAny(lower, section.ChunkTerms())
  }

  /** `get_section_for_chunk`: the first section, in priority order, whose
      keywords occur in the lowercased chunk, and General when none does.
      The resume sections found by `identify_resume_sections` are passed to
      it by the source but never consulted, so they are not a parameter. */
  function SectionForChunk(chunk: string): (r: Section)
    ensures r == General <==> forall k :: 0 <= k < |Priority| ==> !Mentions(ToLower(chunk), Priority[k])
    ensures r != General ==>
      exists k :: 0 <= k < |Priority| && Priority[k] == r && Mentions(ToLower(chunk), r) &&
        (forall j :: 0 <= j < k ==> !Mentions(ToLower(chunk), Priority[j]))
  {
    var lower := ToLower(chunk);
    if ContainsAny(lower, SkillsTerms) then
      assert Mentions(lower, Priority[0]);
      Skills
    else if ContainsAny(lower, EducationTerms) then
      assert Mentions(lower, Priority[1]);
      Education
    else if ContainsAny(lower, ExperienceTerms) then
      assert Mentions(lower, Priority[2]);
      Experience
    else if ContainsAny(lower, ProjectTerms) then
      assert Mentions(lower, Priority[3]);
      Projects
    else General
  }

  /** Classification ignores letter case: a chunk and its lowercase form
      land in the same section. */
  lemma {:induction false} SectionIgnoresCase(chunk: string)
    ensures SectionForChunk(ToLower(chunk)) == SectionForChunk(chunk)
  {
    ToLowerIdempotent(chunk);
  }

  // ---------------------------------------------------------------------
  // Technical vocabulary (`contains_technical_terms`)

  const TechnicalTerms: seq<string> := [
    "python", "javascript", "java", "react", "node", "docker", "kubernetes",
    "aws", "azure", "gcp", "nginx", "apache", "mysql", "postgresql", "mongodb",
    "redis", "elasticsearch", "git", "github", "gitlab", "ci/cd", "jenkins",
    "terraform", "ansible", "linux", "ubuntu", "centos", "api", "rest", "graphql",
    "microservices", "devops", "cloud", "serverless", "lambda", "ec2", "s3"]

  /** `contains_technical_terms`: some listed term occurs, as a substring, at
      some position of the lowercased text. */
  function ContainsTechnicalTerms(text: string): (r: bool)
    ensures r ==> exists k, i :: 0 <= k < |TechnicalTerms| && OccursAt(ToLower(text), TechnicalTerms[k], i)
    ensures (exists k, i :: 0 <= k < |TechnicalTerms| && OccursAt(ToLower(text), TechnicalTerms[k], i)) ==> r
  {
    ContainsAnyIffOccurs(ToLower(text), TechnicalTerms);
    ContainsAny(ToLower(text), TechnicalTerms)
  }

  /** Some term is contained exactly when some term occurs at some index. */
  lemma {:induction false} ContainsAnyIffOccurs(s: string, terms: seq<string>)
    ensures ContainsAny(s, terms) <==> exists k, i :: 0 <= k < |terms| && OccursAt(s, terms[k], i)
  {
    if ContainsAny(s, terms) {
      var k :| 0 <= k < |terms| && Contains(s, terms[k]);
      ContainsIffOccurs(s, terms[k]);
    }
    forall k, i | 0 <= k < |terms| && OccursAt(s, terms[k], i) ensures ContainsAny(s, terms) {
      ContainsIffOccurs(s, terms[k]);
    }
  }

  /** Lowercasing distributes over concatenation. */
  lemma {:induction false} ToLowerConcat(a: string, b: string)
    ensures ToLower(a + b) == ToLower(a) + ToLower(b)
    decreases |a|
  {
    if a == [] {
      assert a + b == b;
    } else {
      assert (a + b)[0] == a[0];
      assert (a + b)[1..] == a[1..] + b;
      ToLowerConcat(a[1..], b);
    }
  }

  /** Technical vocabulary survives any surrounding text: a text with a
      technical piece in it is technical. */
  lemma {:induction false} TechnicalInContext(before: string, piece: string, after: string)
    requires ContainsTechnicalTerms(piece)
    ensures ContainsTechnicalTerms(before + piece + after)
  {
    var k, i :| 0 <= k < |TechnicalTerms| && OccursAt(ToLower(piece), TechnicalTerms[k], i);
    ToLowerConcat(before, piece);
    ToLowerConcat(before + piece, after);
    var whole := ToLower(before) + ToLower(piece) + ToLower(after);
    assert ToLower(before + piece + after) == whole;
    var t := TechnicalTerms[k];
    forall m | |before| + i <= m < |before| + i + |t| ensures whole[m] == t[m - (|before| + i)] {
      assert whole[m] == ToLower(piece)[m - |before|];
    }
    assert OccursAt(whole, t, |before| + i);
  }

  // ---------------------------------------------------------------------
  // Resume section headers (`identify_resume_sections`)

  /** A header pattern: the section it announces and the words of its
      case-insensitive alternation. */
  type Pattern = (Section, seq<string>)

  /** The header patterns in the source's dict order. A line matches a
      pattern exactly when the line's lowercase form contains one of the
      pattern's words. */
  const HeaderPatterns: seq<Pattern> := [
    (Contact, ["email", "phone", "address", "linkedin", "github"]),
    (Summary, ["summary", "profile", "objective", "about"]),
    (Experience, ["experience", "employment", "work", "career", "position"]),
    (Education, ["education", "degree", "university", "college", "school"]),
    (Skills, ["skills", "technologies", "technical", "competencies", "tools", "programming"]),
    (Projects, ["projects", "portfolio", "work samples", "applications"]),
    (Certifications, ["certifications", "certificates", "licenses", "credentials"]),
    (Awards, ["awards", "honors", "achievements", "recognition"])]

  /** A header line has at most this many words. */
  const MaxHeaderWords: nat := 5

  /** The line contains one of the pattern's words, in any letter case. */
  predicate Announces(line: string, pattern: Pattern) {
    ContainsAny(ToLower(line), pattern.1)
  }

  /** The line matches the pattern and is short enough. */
  predicate PatternMatches(line: string, pattern: Pattern) {
    Announces(line, pattern) && |Words(line)| <= MaxHeaderWords
  }

  /** The section of the first pattern in `patterns` that the line matches. */
  function FirstHeader(line: string, patterns: seq<Pattern>): Option<Section>
  {
    if patterns == [] then None
    else if PatternMatches(line, patterns[0]) then Some(patterns[0].0)
    else FirstHeader(line, patterns[1..])
  }

  /** The section a (stripped) line announces, if it is a header. */
  function HeaderOf(line: string): Option<Section> {
    FirstHeader(line, HeaderPatterns)
  }

  /** A line is a header only when it has at most five words, and then it
      announces the section of the first pattern in dict order that it
      matches; a short line matching no pattern, or any longer line,
      announces nothing. */
  lemma {:induction false} HeaderOfMeaning(line: string)
    ensures HeaderOf(line).None? <==>
      |Words(line)| > MaxHeaderWords || forall k :: 0 <= k < |HeaderPatterns| ==> !Announces(line, HeaderPatterns[k])
    ensures HeaderOf(line).Some? ==>
      |Words(line)| <= MaxHeaderWords &&
      exists k :: 0 <= k < |HeaderPatterns| && HeaderPatterns[k].0 == HeaderOf(line).value &&
        Announces(line, HeaderPatterns[k]) && (forall j :: 0 <= j < k ==> !Announces(line, HeaderPatterns[j]))
  {
    FirstHeaderNone(line, HeaderPatterns);
    if HeaderOf(line).Some? {
      var k := FirstHeaderIndex(line, HeaderPatterns);
    }
  }

  lemma {:induction false} FirstHeaderNone(line: string, patterns: seq<Pattern>)
    ensures FirstHeader(line, patterns).None? <==>
      |Words(line)| > MaxHeaderWords || forall k :: 0 <= k < |patterns| ==> !Announces(line, patterns[k])
  {
    if patterns != [] && !PatternMatches(line, patterns[0]) {
      FirstHeaderNone(line, patterns[1..]);
      if FirstHeader(line, patterns).None? && |Words(line)| <= MaxHeaderWords {
        forall k | 0 <= k < |patterns| ensures !Announces(line, patterns[k]) {
          if k > 0 {
            assert patterns[k] == patterns[1..][k - 1];
          }
        }
      }
    }
  }

  /** The position in `patterns` of the pattern the line matches first. */
  lemma {:induction false} FirstHeaderIndex(line: string, patterns: seq<Pattern>) returns (k: nat)
    requires FirstHeader(line, patterns).Some?
    ensures |Words(line)| <= MaxHeaderWords
    ensures k < |patterns| && patterns[k].0 == FirstHeader(line, patterns).value && Announces(line, patterns[k])
    ensures forall j :: 0 <= j < k ==> !Announces(line, patterns[j])
  {
    if PatternMatches(line, patterns[0]) {
      k := 0;
    } else {
      var k' := FirstHeaderIndex(line, patterns[1..]);
      k := k' + 1;
      assert patterns[k] == patterns[1..][k'];
      forall j | 0 <= j < k ensures !Announces(line, patterns[j]) {
        if j > 0 {
          assert patterns[j] == patterns[1..][j - 1];
        }
      }
    }
  }

  /** What the dict records for a header: its line number and its text. */
  function Mark(lineNo: nat, header: string): Value {
    Obj([Field("start_line", Int(lineNo)), Field("header", Str(header))])
  }

  /** The section announced by line `j` after stripping, under the given
      patterns; blank lines are skipped. */
  function HeaderAt(lines: seq<string>, j: nat, patterns: seq<Pattern>): Option<Section>
    requires j < |lines|
  {
    var line := Strip(lines[j]);
    if line == [] then None else FirstHeader(line, patterns)
  }

  /** The dict assignment line `j` makes, if any: the name of the section
      it announces, mapped to its line number and stripped text. */
  function Announcement(lines: seq<string>, j: nat, patterns: seq<Pattern>): Option<Field>
    requires j < |lines|
  {
    match HeaderAt(lines, j, patterns)
    case None => None
    case Some(section) => Some(Field(section.Name(), Mark(j, Strip(lines[j]))))
  }

  /** The assignments of all lines, in order. */
  function Announcements(lines: seq<string>, patterns: seq<Pattern>): (ws: seq<Option<Field>>)
    ensures |ws| == |lines|
  {
    seq(|lines|, j requires 0 <= j < |lines| => Announcement(lines, j, patterns))
  }

  /** Entry `j` of the announcements is line `j`'s own. */
  lemma {:induction false} AnnouncementsIndex(lines: seq<string>, patterns: seq<Pattern>)
    ensures forall j :: 0 <= j < |lines| ==> Announcements(lines, patterns)[j] == Announcement(lines, j, patterns)
  {
  }

  /** A dict built from empty by the first `n` of a sequence of optional
      assignments `d[key] = val`. */
  function Assigned(ws: seq<Option<Field>>, n: nat): Fields
    requires n <= |ws|
  {
    if n == 0 then []
    else
      match ws[n - 1]
      case None => Assigned(ws, n - 1)
      case Some(w) => Put(Assigned(ws, n - 1), w.key, w.val)
  }

  /** `identify_resume_sections`: splits the text into lines and scans
      them with the section patterns. The resulting dict is the one the
      lines' announcements build. */
  method IdentifyResumeSections(text: string) returns (sections: Fields)
    ensures var lines := SplitOn(text, "\n");
      sections == Assigned(Announcements(lines, HeaderPatterns), |lines|)
  {
    sections := ScanSections(SplitOn(text, "\n"), HeaderPatterns);
  }

  /** The loop of `identify_resume_sections`: for every non-blank stripped
      line, tries the patterns in order and records the first that matches
      (when the line is short enough). */
  method ScanSections(lines: seq<string>, patterns: seq<Pattern>) returns (sections: Fields)
    ensures sections == Assigned(Announcements(lines, patterns), |lines|)
  {
    sections := [];
    for i := 0 to |lines|
      invariant sections == Assigned(Announcements(lines, patterns), i)
    {
      sections := ScanLine(lines, patterns, i, sections);
    }
  }

  /** One pass of the loop of `identify_resume_sections`: line `i`, stripped,
      is recorded under the first pattern it matches. */
  method ScanLine(lines: seq<string>, patterns: seq<Pattern>, i: nat, sections0: Fields) returns (sections: Fields)
    requires i < |lines| && sections0 == Assigned(Announcements(lines, patterns), i)
    ensures sections == Assigned(Announcements(lines, patterns), i + 1)
  {
    var line := Strip(lines[i]);
    var hit := None;
    if line != [] {
      hit := MatchHeader(line, patterns);
    }
    assert hit == HeaderAt(lines, i, patterns);
    ScanStep(lines, patterns, Announcements(lines, patterns), i, hit);
    sections := sections0;
    if hit.Some? {
      sections := Put(sections, hit.value.Name(), Mark(i, line));
    }
  }

  /** The assignment line `i` adds to the dict, if any. */
  lemma {:induction false} ScanStep(lines: seq<string>, patterns: seq<Pattern>, ws: seq<Option<Field>>,
                                    i: nat, hit: Option<Section>)
    requires ws == Announcements(lines, patterns) && i < |lines| && hit == HeaderAt(lines, i, patterns)
    ensures hit.None? ==> Assigned(ws, i + 1) == Assigned(ws, i)
    ensures hit.Some? ==> Assigned(ws, i + 1) == Put(Assigned(ws, i), hit.value.Name(), Mark(i, Strip(lines[i])))
  {
    assert ws[i] == Announcement(lines, i, patterns);
  }

  /** The inner loop of `identify_resume_sections`: tries the patterns in
      order and stops at the first one the line matches. */
  method MatchHeader(line: string, patterns: seq<Pattern>) returns (hit: Option<Section>)
    ensures hit == FirstHeader(line, patterns)
  {
    hit := None;
    var p := 0;
    while p < |patterns|
      invariant 0 <= p <= |patterns|
      invariant FirstHeader(line, patterns[p..]) == FirstHeader(line, patterns)
    {
      var (section, words) := patterns[p];
      if ContainsAny(ToLower(line), words) && |Words(line)| <= MaxHeaderWords {
        hit := Some(section);
        break;
      }
      assert patterns[p..][1..] == patterns[p + 1..];
      p := p + 1;
    }
  }

  /** The assignments build a dict: no key is stored twice. */
  lemma {:induction false} AssignedIsDict(ws: seq<Option<Field>>, n: nat)
    requires n <= |ws|
    ensures IsDict(Assigned(ws, n))
  {
    if n > 0 {
      AssignedIsDict(ws, n - 1);
      match ws[n - 1]
      case None =>
      case Some(w) => PutKeepsDict(Assigned(ws, n - 1), w.key, w.val);
    }
  }

  /** A key is present exactly when some assignment wrote it. */
  lemma {:induction false} AssignedKeyIffWritten(ws: seq<Option<Field>>, n: nat, key: string)
    requires n <= |ws|
    ensures HasKey(Assigned(ws, n), key) <==> exists j :: 0 <= j < n && Writes(ws[j], key)
  {
    if n > 0 {
      AssignedKeyIffWritten(ws, n - 1, key);
      match ws[n - 1]
      case None =>
      case Some(w) => LookupPut(Assigned(ws, n - 1), w.key, w.val, key);
    }
  }

  /** The assignment writes `key`. */
  predicate Writes(w: Option<Field>, key: string) {
    w.Some? && w.value.key == key
  }

  /** A key holds the value of the LAST assignment that wrote it: a later
      header for the same section overwrites an earlier one. */
  lemma {:induction false} AssignedLastWriteWins(ws: seq<Option<Field>>, n: nat, j: nat)
    requires j < n <= |ws|
    requires ws[j].Some? && forall m :: j < m < n ==> !Writes(ws[m], ws[j].value.key)
    ensures Lookup(Assigned(ws, n), ws[j].value.key) == Some(ws[j].value.val)
  {
    var w := ws[j].value;
    if j == n - 1 {
      LookupPut(Assigned(ws, n - 1), w.key, w.val, w.key);
    } else {
      AssignedLastWriteWins(ws, n - 1, j);
      match ws[n - 1]
      case None =>
      case Some(v) => LookupPut(Assigned(ws, n - 1), v.key, v.val, w.key);
    }
  }

  // ---------------------------------------------------------------------
  // Skills preview (`extract_skills_preview`)

  const SkillsIndicators: seq<string> :=
    ["skills", "technical skills", "technologies", "programming languages", "tools"]
  const PreviewLength: nat := 300

  /** The index of the first indicator, in list order, that occurs in the
      lowercased text. */
  function FirstIndicator(lower: string, indicators: seq<string>): (r: Option<nat>)
    ensures r.None? <==> forall k :: 0 <= k < |indicators| ==> !Contains(lower, indicators[k])
    ensures r.Some? ==>
      r.value < |indicators| && Contains(lower, indicators[r.value]) &&
      (forall j :: 0 <= j < r.value ==> !Contains(lower, indicators[j]))
  {
    if indicators == [] then None
    else if Contains(lower, indicators[0]) then Some(0)
    else
      var r := FirstIndicator(lower, indicators[1..]);
      assert forall k :: 1 <= k < |indicators| ==> indicators[k] == indicators[1..][k - 1];
      if r.None? then None else Some(r.value + 1)
  }

  /** `text[start:start + 300]` with newlines turned into spaces, stripped. */
  function Preview(text: string, start: nat): (r: string)
    requires start <= |text|
    ensures |r| <= PreviewLength
    ensures forall i :: 0 <= i < |r| ==> r[i] != '\n'
  {
    var stop := if start + PreviewLength <= |text| then start + PreviewLength else |text|;
    var flat := ReplaceChar(text[start..stop], '\n', ' ');
    StripKeepsNoNewline(flat);
    Strip(flat)
  }

  /** Stripping a text without newlines leaves none. */
  lemma {:induction false} StripKeepsNoNewline(s: string)
    requires forall i :: 0 <= i < |s| ==> s[i] != '\n'
    ensures forall i :: 0 <= i < |Strip(s)| ==> Strip(s)[i] != '\n'
  {
    var r := Strip(s);
    assert forall i :: 0 <= i < |r| ==> r[i] == s[LeadingSpaces(s) + i];
  }

  /** `extract_skills_preview`: the preview taken where the first indicator
      of the list (not the earliest in the text) occurs, and "" when none
      occurs. */
  function ExtractSkillsPreview(text: string): (r: string)
    ensures |r| <= PreviewLength
    ensures forall i :: 0 <= i < |r| ==> r[i] != '\n'
  {
    var lower := ToLower(text);
    match FirstIndicator(lower, SkillsIndicators)
    case None => ""
    case Some(k) => Preview(text, Find(lower, SkillsIndicators[k]))
  }

  /** The preview is empty exactly when no indicator occurs: where an
      indicator occurs the text starts with a letter, which `strip()` keeps. */
  lemma {:induction false} SkillsPreviewEmptyIffNoIndicator(text: string)
    ensures ExtractSkillsPreview(text) == "" <==>
      forall k :: 0 <= k < |SkillsIndicators| ==> !Contains(ToLower(text), SkillsIndicators[k])
  {
    var lower := ToLower(text);
    var found := FirstIndicator(lower, SkillsIndicators);
    if found.Some? {
      var ind := SkillsIndicators[found.value];
      var start := Find(lower, ind);
      assert 'a' <= ind[0] <= 'z';
      PreviewAtLetter(text, start);
    }
  }

  /** A preview taken at a letter is never empty. */
  lemma {:induction false} PreviewAtLetter(text: string, start: int)
    requires 0 <= start < |text| && 'a' <= LowerChar(text[start]) <= 'z'
    ensures Preview(text, start) != ""
  {
    assert !IsSpace(text[start]);
    var stop := if start + PreviewLength <= |text| then start + PreviewLength else |text|;
    var flat := ReplaceChar(text[start..stop], '\n', ' ');
    assert flat[0] == text[start];
    StripEmptyIffBlank(flat);
  }

  /** "technical skills" can never be the indicator chosen: wherever it
      occurs, "skills", listed before it, occurs too. */
  lemma {:induction false} TechnicalSkillsShadowed(text: string)
    ensures FirstIndicator(ToLower(text), SkillsIndicators) != Some(1)
  {
    var lower := ToLower(text);
    assert SkillsIndicators[1] == "technical " + SkillsIndicators[0];
    if Contains(lower, SkillsIndicators[1]) {
      ContainsTail(lower, "technical ", SkillsIndicators[0]);
    }
  }

  /** Wherever `t + u` occurs, `u` occurs too. */
  lemma {:induction false} ContainsTail(s: string, t: string, u: string)
    requires Contains(s, t + u)
    ensures Contains(s, u)
  {
    ContainsIffOccurs(s, t + u);
    var i :| OccursAt(s, t + u, i);
    assert OccursAt(s, u, i + |t|) by {
      forall m | i + |t| <= m < i + |t| + |u| ensures s[m] == u[m - (i + |t|)] {
        assert s[m] == (t + u)[m - i];
      }
    }
    ContainsIffOccurs(s, u);
  }

  // ---------------------------------------------------------------------
  // Key information (`extract_key_information`)

  /** The facts `extract_key_information` returns; the two optional fields
      are absent from the source's dict when `None`. */
  datatype KeyInfo = KeyInfo(
    wordCount: nat,
    characterCount: nat,
    paragraphCount: nat,
    potentialTitle: Option<string>,
    skillsPreview: Option<string>)

  /** `[p.strip() for p in parts]` */
  function StripAll(parts: seq<string>): (ps: seq<string>)
    ensures |ps| == |parts|
    ensures forall i :: 0 <= i < |parts| ==> ps[i] == Strip(parts[i])
  {
    seq(|parts|, i requires 0 <= i < |parts| => Strip(parts[i]))
  }

  /** The number of non-empty strings. */
  function CountNonEmpty(ps: seq<string>): (n: nat)
    ensures n <= |ps|
  {
    if ps == [] then 0
    else CountNonEmpty(ps[..|ps| - 1]) + if ps[|ps| - 1] != [] then 1 else 0
  }

  /** Stripped lines longer than three characters, in order. */
  function MeaningfulLines(lines: seq<string>): (ms: seq<string>)
    ensures |ms| <= |lines|
    ensures forall k :: 0 <= k < |ms| ==> |ms[k]| > 3 && Strip(ms[k]) == ms[k]
  {
    if lines == [] then []
    else
      var rest := MeaningfulLines(lines[1..]);
      var line := Strip(lines[0]);
      StripIdempotent(lines[0]);
      if line != [] && |line| > 3 then [line] + rest else rest
  }

  /** A line that could be a name: at most four words and an uppercase
      letter. */
  predicate NameLike(line: string) {
    |Words(line)| <= 4 && HasUpper(line)
  }

  /** The first name-like line. */
  function FirstNameLike(lines: seq<string>): (r: Option<nat>)
    ensures r.None? <==> forall k :: 0 <= k < |lines| ==> !NameLike(lines[k])
    ensures r.Some? ==>
      r.value < |lines| && NameLike(lines[r.value]) &&
      (forall j :: 0 <= j < r.value ==> !NameLike(lines[j]))
  {
    if lines == [] then None
    else if NameLike(lines[0]) then Some(0)
    else
      var r := FirstNameLike(lines[1..]);
      assert forall k :: 1 <= k < |lines| ==> lines[k] == lines[1..][k - 1];
      if r.None? then None else Some(r.value + 1)
  }

  const TitleCandidates: nat := 5
  const TitleLength: nat := 100

  /** The `potential_title` rule over the meaningful lines. */
  function PotentialTitle(ms: seq<string>): Option<string> {
    if ms == [] then None
    else
      match FirstNameLike(SliceTo(ms, TitleCandidates))
      case Some(k) => Some(SliceTo(ms[k], TitleLength))
      case None => Some(SliceTo(ms[0], TitleLength))
  }

  /** `extract_key_information`. */
  function ExtractKeyInformation(text: string): (info: KeyInfo)
    ensures info.characterCount == |text|
  {
    var preview := ExtractSkillsPreview(text);
    KeyInfo(
      |Words(text)|,
      |text|,
      CountNonEmpty(StripAll(SplitOn(text, "\n\n"))),
      PotentialTitle(MeaningfulLines(SplitOn(text, "\n"))),
      if preview != "" then Some(preview) else None)
  }

  /** No line is meaningful exactly when every line is at most three
      characters long once stripped. */
  lemma {:induction false} MeaningfulLinesEmpty(lines: seq<string>)
    ensures MeaningfulLines(lines) == [] <==> forall k :: 0 <= k < |lines| ==> |Strip(lines[k])| <= 3
  {
    if lines != [] {
      MeaningfulLinesEmpty(lines[1..]);
      assert forall k :: 1 <= k < |lines| ==> lines[1..][k - 1] == lines[k];
    }
  }

  /** The optional fields of the key information: a title exactly when
      some line of the text is longer than three characters once stripped,
      and a skills preview exactly when some skills indicator occurs. */
  lemma {:induction false} KeyInformationFields(text: string)
    ensures ExtractKeyInformation(text).potentialTitle.None? <==>
      forall k :: 0 <= k < |SplitOn(text, "\n")| ==> |Strip(SplitOn(text, "\n")[k])| <= 3
    ensures ExtractKeyInformation(text).skillsPreview.None? <==>
      forall k :: 0 <= k < |SkillsIndicators| ==> !Contains(ToLower(text), SkillsIndicators[k])
  {
    var lines := SplitOn(text, "\n");
    TitleChoice(MeaningfulLines(lines));
    MeaningfulLinesEmpty(lines);
    SkillsPreviewEmptyIffNoIndicator(text);
  }

  /** The title is present exactly when some line is meaningful. It is the
      first meaningful line, among the first five, that looks like a name,
      or else the first meaningful line, cut to 100 characters. */
  lemma {:induction false} TitleChoice(ms: seq<string>)
    ensures PotentialTitle(ms).Some? <==> ms != []
    ensures PotentialTitle(ms).Some? ==>
      var title := PotentialTitle(ms).value;
      |title| <= TitleLength &&
      exists k :: 0 <= k < |ms| && k < TitleCandidates && title == SliceTo(ms[k], TitleLength) &&
        (forall j :: 0 <= j < k ==> !NameLike(ms[j])) &&
        (NameLike(ms[k]) || (k == 0 && forall j :: 0 <= j < |ms| && j < TitleCandidates ==> !NameLike(ms[j])))
  {
    if ms != [] {
      var firstFive := SliceTo(ms, TitleCandidates);
      assert forall j :: 0 <= j < |firstFive| ==> firstFive[j] == ms[j];
      match FirstNameLike(firstFive)
      case Some(k) =>
        assert ms[k] == firstFive[k];
      case None =>
    }
  }

  /** A concatenation is blank exactly when both parts are. */
  lemma {:induction false} BlankConcat(a: string, b: string)
    ensures IsBlank(a + b) <==> IsBlank(a) && IsBlank(b)
  {
    if IsBlank(a + b) {
      assert forall i :: 0 <= i < |a| ==> a[i] == (a + b)[i];
      assert forall i :: 0 <= i < |b| ==> b[i] == (a + b)[|a| + i];
    }
  }

  /** Joining with a blank separator gives a blank string exactly when
      every part is blank. */
  lemma {:induction false} JoinBlank(parts: seq<string>, sep: string)
    requires IsBlank(sep)
    ensures IsBlank(Join(parts, sep)) <==> forall k :: 0 <= k < |parts| ==> IsBlank(parts[k])
  {
    if |parts| > 1 {
      JoinBlank(parts[1..], sep);
      BlankConcat(parts[0] + sep, Join(parts[1..], sep));
      BlankConcat(parts[0], sep);
      assert forall k :: 1 <= k < |parts| ==> parts[k] == parts[1..][k - 1];
    }
  }

  /** No string is counted exactly when all are empty. */
  lemma {:induction false} CountNonEmptyZero(ps: seq<string>)
    ensures CountNonEmpty(ps) == 0 <==> forall k :: 0 <= k < |ps| ==> ps[k] == []
  {
    if ps != [] {
      var init := ps[..|ps| - 1];
      CountNonEmptyZero(init);
      assert forall k :: 0 <= k < |init| ==> init[k] == ps[k];
    }
  }

  /** No stripped part is counted exactly when every part is blank. */
  lemma {:induction false} CountNonBlankZero(parts: seq<string>)
    ensures CountNonEmpty(StripAll(parts)) == 0 <==> forall k :: 0 <= k < |parts| ==> IsBlank(parts[k])
  {
    CountNonEmptyZero(StripAll(parts));
    forall k | 0 <= k < |parts| ensures Strip(parts[k]) == [] <==> IsBlank(parts[k]) {
      StripEmptyIffBlank(parts[k]);
    }
  }

  /** A document has no words exactly when it has no paragraphs, and
      exactly when it is blank. */
  lemma {:induction false} NoWordsIffNoParagraphs(text: string)
    ensures var info := ExtractKeyInformation(text);
      (info.wordCount == 0 <==> IsBlank(text)) && (info.paragraphCount == 0 <==> IsBlank(text))
  {
    WordsEmptyIffBlank(text);
    var parts := SplitOn(text, "\n\n");
    JoinSplitOn(text, "\n\n");
    JoinBlank(parts, "\n\n");
    CountNonBlankZero(parts);
  }

  // ---------------------------------------------------------------------
  // Chunk metadata (`create_chunks`)

  /** A chunk as `create_chunks` returns it. Its `id` is a fresh random
      UUID and is not modelled. */
  datatype Chunk = Chunk(text: string, content: string, metadata: Fields)

  /** The metadata computed for one non-blank chunk. `word_density` is the
      ratio of words to characters; `floatText` is how Python prints it. */
  function ChunkMetadata(index: nat, chunk: string, total: nat, floatText: real -> string): Fields
    requires chunk != []
  {
    var words := |Words(chunk)|;
    var density := words as real / |chunk| as real;
    [Field("chunk_index", Int(index)),
     Field("chunk_size", Int(words)),
     Field("character_count", Int(|chunk|)),
     Field("total_chunks", Int(total)),
     Field("section_type", Str(SectionForChunk(chunk).Name())),
     Field("contains_technical_terms", Bool(ContainsTechnicalTerms(chunk))),
     Field("word_density", Float(density, floatText(density)))]
  }

  /** One chunk: the stripped text twice, and its metadata with the
      document's metadata merged over it when that is non-empty. */
  function MakeChunk(index: nat, chunk: string, total: nat, metadata: Fields, floatText: real -> string): Chunk
    requires chunk != []
  {
    var own := ChunkMetadata(index, chunk, total, floatText);
    Chunk(chunk, chunk, if metadata != [] then Update(own, metadata) else own)
  }

  /** The chunk maker `create_chunks` applies to each non-blank split. */
  function ChunkMaker(total: nat, metadata: Fields, floatText: real -> string): (nat, string) --> Chunk {
    (index: nat, chunk: string) requires chunk != [] => MakeChunk(index, chunk, total, metadata, floatText)
  }

  /** What `make` yields for the first `n` parts, skipping empty parts and
      passing each other part with its position. */
  function Gather<T>(parts: seq<string>, n: nat, make: (nat, string) --> T): (r: seq<T>)
    requires n <= |parts|
    requires forall i: nat, c: string :: c != [] ==> make.requires(i, c)
    ensures |r| == |Origins(parts, n)|
  {
    if n == 0 then []
    else
      var prev := Gather(parts, n - 1, make);
      if parts[n - 1] == [] then prev else prev + [make(n - 1, parts[n - 1])]
  }

  /** The chunks made from the first `n` stripped splits `parts` out of
      `total`: empty parts are skipped, the others keep their split
      position as index. */
  function ChunksOf(parts: seq<string>, n: nat, total: nat, metadata: Fields, floatText: real -> string): (chunks: seq<Chunk>)
    requires n <= |parts|
    ensures |chunks| == |Origins(parts, n)|
  {
    Gather(parts, n, ChunkMaker(total, metadata, floatText))
  }

  /** `create_chunks`. The splitter is a parameter. The source also computes
      the resume sections first, but nothing in the result depends on them. */
  method CreateChunks(text: string, metadata: Fields, split: string -> seq<string>, floatText: real -> string)
    returns (chunks: seq<Chunk>)
    ensures text == [] ==> chunks == []
    ensures text != [] ==>
      chunks == ChunksOf(StripAll(split(text)), |split(text)|, |split(text)|, metadata, floatText)
  {
    if text == [] {
      return [];
    }
    var textChunks := split(text);
    var total := |textChunks|;
    ghost var parts := StripAll(textChunks);
    ghost var make := ChunkMaker(total, metadata, floatText);
    chunks := [];
    for i := 0 to |textChunks|
      invariant chunks == Gather(parts, i, make)
    {
      var chunkText := Strip(textChunks[i]);
      assert chunkText == parts[i];
      if chunkText == [] {
        continue;
      }
      var chunk := MakeChunk(i, chunkText, total, metadata, floatText);
      assert make(i, chunkText) == chunk;
      chunks := chunks + [chunk];
    }
  }

  /** The positions of the parts that yield a chunk. */
  function Origins(parts: seq<string>, n: nat): seq<nat>
    requires n <= |parts|
  {
    if n == 0 then []
    else Origins(parts, n - 1) + if parts[n - 1] == [] then [] else [n - 1]
  }

  /** The origins are the positions of the non-empty parts, in increasing
      order: one per non-empty part, none for an empty one. */
  lemma {:induction false} OriginsAreNonEmptyParts(parts: seq<string>, n: nat)
    requires n <= |parts|
    ensures var origins := Origins(parts, n);
      |origins| == CountNonEmpty(parts[..n]) &&
      (forall k :: 0 <= k < |origins| ==> origins[k] < n && parts[origins[k]] != []) &&
      (forall k, l :: 0 <= k < l < |origins| ==> origins[k] < origins[l]) &&
      (forall i :: 0 <= i < n && parts[i] != [] ==> i in origins)
  {
    if n > 0 {
      assert parts[..n][..n - 1] == parts[..n - 1];
      OriginsAreNonEmptyParts(parts, n - 1);
    }
  }

  /** Chunk `k` is made from the part at the `k`-th origin, keeping that
      part's position as its index, so indices may skip (blank splits) but
      never repeat. */
  lemma {:induction false} ChunksFollowSplits(parts: seq<string>, n: nat, total: nat, metadata: Fields, floatText: real -> string, k: nat)
    requires n <= |parts| && k < |Origins(parts, n)|
    ensures var origins := Origins(parts, n);
      origins[k] < n && parts[origins[k]] != [] &&
      ChunksOf(parts, n, total, metadata, floatText)[k] == MakeChunk(origins[k], parts[origins[k]], total, metadata, floatText)
  {
    GatherFollowsOrigins(parts, n, ChunkMaker(total, metadata, floatText), k);
  }

  /** Element `k` of a gathering is what `make` yields for the part at the
      `k`-th origin. */
  lemma {:induction false} GatherFollowsOrigins<T>(parts: seq<string>, n: nat, make: (nat, string) --> T, k: nat)
    requires n <= |parts| && k < |Origins(parts, n)|
    requires forall i: nat, c: string :: c != [] ==> make.requires(i, c)
    ensures var origins := Origins(parts, n);
      origins[k] < n && parts[origins[k]] != [] &&
      Gather(parts, n, make)[k] == make(origins[k], parts[origins[k]])
  {
    var before := Origins(parts, n - 1);
    if k < |before| {
      GatherFollowsOrigins(parts, n - 1, make, k);
    }
  }

  /** Every chunk's `text` equals its `content`; a key of the document's
      metadata reads the document's value (it overrides the chunk's own),
      any other key reads the chunk's own value. */
  lemma {:induction false} ChunkMetadataMerge(index: nat, chunk: string, total: nat, metadata: Fields, floatText: real -> string, key: string)
    requires chunk != [] && IsDict(metadata)
    ensures var c := MakeChunk(index, chunk, total, metadata, floatText);
      c.text == c.content == chunk &&
      Lookup(c.metadata, key) ==
        if HasKey(metadata, key) then Lookup(metadata, key) else Lookup(ChunkMetadata(index, chunk, total, floatText), key)
  {
    if metadata != [] {
      LookupUpdate(ChunkMetadata(index, chunk, total, floatText), metadata, key);
    }
  }
}
