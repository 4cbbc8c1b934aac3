/**
 * ShareReceiverActivity: which shared intents lead to an upload, how the
 * tags and the classifier's labels are cleaned up, the tags line, and the
 * finish timer that is scheduled at most once.
 */
module ShareReceiver {
  import opened Optional
  import opened Text

  const ACTION_SEND: string := "android.intent.action.SEND"

  /** The preview is decoded so that both sides stay near 720 pixels. */
  const PREVIEW_MAX_SIZE: int := 720

  /** Labels kept from the classifier. */
  const MAX_LABELS: nat := 6

  /** A `SEND` intent whose MIME type starts with `image/`. */
  predicate IsImageShare(action: string, mimeType: Option<string>)
    ensures action != ACTION_SEND || mimeType.None? ==> !IsImageShare(action, mimeType)
    ensures mimeType.Some? ==> (IsImageShare(action, mimeType) <==> action == ACTION_SEND && StartsWith(mimeType.value, "image/"))
  {
    action == ACTION_SEND && mimeType.Some? && StartsWith(mimeType.value, "image/")
  }

  /** What `processShareIntent` does before reading the image. */
  datatype Gate = Close | MissingImage | MissingSettings | Proceed

  /**
   * The guards of `processShareIntent`: a non-image share just finishes, a
   * missing stream is a generic error, and an empty token or URL sends the
   * user to the settings. The board id may be empty.
   */
  function ShareGate(action: string, mimeType: Option<string>, hasImageUri: bool, token: string, pinryUrl: string): (g: Gate)
    ensures g == Close <==> !IsImageShare(action, mimeType)
    ensures g == MissingImage <==> IsImageShare(action, mimeType) && !hasImageUri
    ensures g == MissingSettings <==> IsImageShare(action, mimeType) && hasImageUri && (token == [] || pinryUrl == [])
    ensures g == Proceed <==> IsImageShare(action, mimeType) && hasImageUri && token != [] && pinryUrl != []
  {
    if !IsImageShare(action, mimeType) then Close
    else if !hasImageUri then MissingImage
    else if token == [] || pinryUrl == [] then MissingSettings
    else Proceed
  }

  // ---------------------------------------------------------------------
  // Tags
  // ---------------------------------------------------------------------

  /** What one tag contributes: itself trimmed, unless that is empty. */
  function KeptTag(tag: string): (r: seq<string>)
    ensures |r| <= 1
    ensures r != [] ==> r[0] == Trim(tag) && r[0] != []
    ensures r == [] ==> Trim(tag) == []
  {
    if Trim(tag) != [] then [Trim(tag)] else []
  }

  /** `tags.map { it.trim() }.filter { it.isNotEmpty() }`. */
  function NormalizeTags(tags: seq<string>): (r: seq<string>)
    ensures |r| <= |tags|
    decreases |tags|
  {
    if tags == [] then [] else KeptTag(tags[0]) + NormalizeTags(tags[1..])
  }

  /** Normalising works tag by tag, so it keeps the order of the tags. */
  lemma {:induction false} NormalizeTagsAppend(a: seq<string>, b: seq<string>)
    ensures NormalizeTags(a + b) == NormalizeTags(a) + NormalizeTags(b)
  {
    if a == [] {
      assert a + b == b;
    } else {
      assert (a + b)[0] == a[0] && (a + b)[1..] == a[1..] + b;
      NormalizeTagsAppend(a[1..], b);
    }
  }

  /** A tag survives when the tag it comes from keeps it. */
  lemma {:induction false} NormalizeTagsKept(tags: seq<string>, x: string)
    ensures x in NormalizeTags(tags) <==> exists i :: 0 <= i < |tags| && x in KeptTag(tags[i])
    decreases |tags|
  {
    if tags != [] {
      var head := KeptTag(tags[0]);
      var rest := NormalizeTags(tags[1..]);
      assert NormalizeTags(tags) == head + rest;
      NormalizeTagsKept(tags[1..], x);
      if exists i :: 0 <= i < |tags| && x in KeptTag(tags[i]) {
        var i :| 0 <= i < |tags| && x in KeptTag(tags[i]);
        if i > 0 {
          assert tags[1..][i - 1] == tags[i];
        }
      }
      if x in rest {
        var i :| 0 <= i < |tags[1..]| && x in KeptTag(tags[1..][i]);
        assert tags[i + 1] == tags[1..][i];
      }
    }
  }

  /** A tag survives exactly when it is some input tag, trimmed, and not empty. */
  lemma NormalizeTagsMembers(tags: seq<string>, x: string)
    ensures x in NormalizeTags(tags) <==> x != [] && exists i :: 0 <= i < |tags| && Trim(tags[i]) == x
  {
    NormalizeTagsKept(tags, x);
    forall i | 0 <= i < |tags|
      ensures x in KeptTag(tags[i]) <==> x != [] && Trim(tags[i]) == x
    {
      var k := KeptTag(tags[i]);
      assert k == [] || k == [k[0]];
    }
  }

  /** Every kept tag is non-empty and already trimmed. */
  lemma NormalizeTagsClean(tags: seq<string>)
    ensures forall x :: x in NormalizeTags(tags) ==> x != [] && Trim(x) == x
  {
    forall x | x in NormalizeTags(tags)
      ensures x != [] && Trim(x) == x
    {
      NormalizeTagsMembers(tags, x);
      var i :| 0 <= i < |tags| && Trim(tags[i]) == x;
      TrimIdempotent(tags[i]);
    }
  }

  /** Duplicates are kept. */
  lemma NormalizeTagsKeepsDuplicates()
    ensures NormalizeTags(["cat", "cat"]) == ["cat", "cat"]
  {
    var cat := "cat";
    assert !IsWhitespace(cat[0]) && !IsWhitespace(cat[2]);
    assert TrimStart(cat) == cat;
    assert TrimEnd(cat) == cat;
    assert ["cat", "cat"][1..] == ["cat"];
  }

  /** The tags line: none, or the prefix with the cleaned tags joined by ", ". */
  datatype TagsLine = NoTags | TagList(joined: string)

  /** `updateTags`: the line always shows; it says "none" exactly when no tag survives cleaning. */
  function TagsLineFor(tags: seq<string>): (r: TagsLine)
    ensures r.NoTags? <==> NormalizeTags(tags) == []
    ensures r.TagList? ==> r.joined == Join(NormalizeTags(tags), ", ")
  {
    if tags == [] then NoTags
    else
      var cleaned := NormalizeTags(tags);
      if cleaned == [] then NoTags else TagList(Join(cleaned, ", "))
  }

  // ---------------------------------------------------------------------
  // Labels
  // ---------------------------------------------------------------------

  /** An image label; the classifier's float confidence is kept only as its order. */
  datatype Label = Label(text: string, confidence: int)

  predicate SortedByConfidence(ls: seq<Label>) {
    forall i, j :: 0 <= i < j < |ls| ==> ls[i].confidence >= ls[j].confidence
  }

  /** A label at least as confident as the head of a sorted list can go in front of it. */
  lemma ConsSorted(h: Label, t: seq<Label>)
    requires SortedByConfidence(t) && (t == [] || h.confidence >= t[0].confidence)
    ensures SortedByConfidence([h] + t)
  {
    var r := [h] + t;
    assert forall j :: 1 <= j < |r| ==> r[j] == t[j - 1];
  }

  /** Inserts `x` before the first less confident label, so equally confident labels keep their order. */
  function InsertByConfidence(x: Label, ys: seq<Label>): (r: seq<Label>)
    requires SortedByConfidence(ys)
    ensures SortedByConfidence(r)
    ensures multiset(r) == multiset(ys) + multiset{x}
    ensures |r| == |ys| + 1 && (r[0] == x || (ys != [] && r[0] == ys[0]))
    decreases |ys|
  {
    if ys == [] || x.confidence >= ys[0].confidence then
      ConsSorted(x, ys);
      [x] + ys
    else
      var rest := InsertByConfidence(x, ys[1..]);
      assert ys == [ys[0]] + ys[1..];
      assert ys[0].confidence >= rest[0].confidence;
      assert multiset([ys[0]] + rest) == multiset{ys[0]} + multiset(rest);
      ConsSorted(ys[0], rest);
      [ys[0]] + rest
  }

  /** The labels of confidence `c`, in their order. */
  function WithConfidence(ls: seq<Label>, c: int): seq<Label>
    decreases |ls|
  {
    if ls == [] then []
    else (if ls[0].confidence == c then [ls[0]] else []) + WithConfidence(ls[1..], c)
  }

  /** Filtering a list with a given head. */
  lemma WithConfidenceCons(h: Label, t: seq<Label>, c: int)
    ensures WithConfidence([h] + t, c) == (if h.confidence == c then [h] else []) + WithConfidence(t, c)
  {
    assert ([h] + t)[1..] == t;
  }

  /** Inserting `x` puts it in front of every label as confident as it is. */
  lemma {:induction false} InsertKeepsTies(x: Label, ys: seq<Label>, c: int)
    requires SortedByConfidence(ys)
    ensures WithConfidence(InsertByConfidence(x, ys), c)
         == (if x.confidence == c then [x] else []) + WithConfidence(ys, c)
    decreases |ys|
  {
    if ys == [] || x.confidence >= ys[0].confidence {
      assert InsertByConfidence(x, ys) == [x] + ys;
      WithConfidenceCons(x, ys, c);
    } else {
      var rest := InsertByConfidence(x, ys[1..]);
      assert InsertByConfidence(x, ys) == [ys[0]] + rest;
      WithConfidenceCons(ys[0], rest, c);
      InsertKeepsTies(x, ys[1..], c);
      assert ys == [ys[0]] + ys[1..];
      WithConfidenceCons(ys[0], ys[1..], c);
    }
  }

  /** The sort is stable: the labels of each confidence keep their relative order. */
  lemma {:induction false} SortIsStable(ls: seq<Label>, c: int)
    ensures WithConfidence(SortByConfidence(ls), c) == WithConfidence(ls, c)
    decreases |ls|
  {
    if ls != [] {
      SortIsStable(ls[1..], c);
      InsertKeepsTies(ls[0], SortByConfidence(ls[1..]), c);
    }
  }

  /** `sortedByDescending { it.confidence }`: a stable sort, most confident first. */
  function SortByConfidence(ls: seq<Label>): (r: seq<Label>)
    ensures SortedByConfidence(r)
    ensures multiset(r) == multiset(ls)
    decreases |ls|
  {
    if ls == [] then []
    else
      assert ls == [ls[0]] + ls[1..];
      InsertByConfidence(ls[0], SortByConfidence(ls[1..]))
  }

  /** `distinct()` on a list of names: the first occurrence of each, in order. */
  function Distinct(xs: seq<string>): (r: seq<string>)
    ensures forall i, j :: 0 <= i < j < |r| ==> r[i] != r[j]
    ensures forall x :: x in r <==> x in xs
    decreases |xs|
  {
    if xs == [] then []
    else
      var d := Distinct(xs[..|xs| - 1]);
      assert xs == xs[..|xs| - 1] + [xs[|xs| - 1]];
      if xs[|xs| - 1] in d then d else d + [xs[|xs| - 1]]
  }

  /** Where a name first occurs. */
  function FirstIndex(xs: seq<string>, x: string): (k: nat)
    requires x in xs
    ensures k < |xs| && xs[k] == x && x !in xs[..k]
  {
    if xs[0] == x then 0
    else
      assert xs == [xs[0]] + xs[1..];
      var k := FirstIndex(xs[1..], x) + 1;
      assert xs[..k] == [xs[0]] + xs[1..][..k - 1];
      k
  }

  /** A name's first occurrence does not move when more names are appended. */
  lemma {:induction false} FirstIndexPrefix(xs: seq<string>, ys: seq<string>, x: string)
    requires x in xs
    ensures x in xs + ys && FirstIndex(xs + ys, x) == FirstIndex(xs, x)
  {
    assert (xs + ys)[0] == xs[0];
    if xs[0] != x {
      assert (xs + ys)[1..] == xs[1..] + ys;
      FirstIndexPrefix(xs[1..], ys, x);
    }
  }

  /** Distinct keeps the order of first occurrences. */
  lemma {:induction false} DistinctInFirstOccurrenceOrder(xs: seq<string>)
    ensures forall i, j :: 0 <= i < j < |Distinct(xs)| ==>
      FirstIndex(xs, Distinct(xs)[i]) < FirstIndex(xs, Distinct(xs)[j])
    decreases |xs|
  {
    if xs != [] {
      var init := xs[..|xs| - 1];
      var last := xs[|xs| - 1];
      assert xs == init + [last];
      DistinctInFirstOccurrenceOrder(init);
      var d := Distinct(init);
      forall x | x in init
        ensures FirstIndex(xs, x) == FirstIndex(init, x)
      {
        FirstIndexPrefix(init, [last], x);
      }
      if last !in d {
        assert last !in init;
        assert forall k :: 0 <= k < |init| ==> init[k] == xs[k];
        assert FirstIndex(xs, last) == |xs| - 1;
      }
    }
  }

  /** The ASCII lower-case text of each label. */
  function LabelNames(ls: seq<Label>): (r: seq<string>)
    ensures |r| == |ls|
    ensures forall i :: 0 <= i < |ls| ==> r[i] == LowercaseAscii(ls[i].text)
  {
    seq(|ls|, i requires 0 <= i < |ls| => LowercaseAscii(ls[i].text))
  }

  /** The lower-cased names the labels carry. */
  function NameSet(labels: seq<Label>): (s: set<string>)
    ensures forall l :: l in labels ==> LowercaseAscii(l.text) in s
    ensures forall x :: x in s ==> exists l :: l in labels && LowercaseAscii(l.text) == x
  {
    set l | l in labels :: LowercaseAscii(l.text)
  }

  /** A sequence without repeats has as many members as elements. */
  lemma {:induction false} NoRepeatsCount(d: seq<string>)
    requires forall i, j :: 0 <= i < j < |d| ==> d[i] != d[j]
    ensures |set x | x in d| == |d|
  {
    if d != [] {
      var init := d[..|d| - 1];
      NoRepeatsCount(init);
      assert (set x | x in d) == (set x | x in init) + {d[|d| - 1]};
      assert d[|d| - 1] !in (set x | x in init);
    }
  }

  /** The distinct sorted names are as many as the labels' distinct names. */
  lemma DistinctCount(labels: seq<Label>, sorted: seq<Label>, names: seq<string>, d: seq<string>)
    requires multiset(sorted) == multiset(labels) && names == LabelNames(sorted) && d == Distinct(names)
    ensures |d| == |NameSet(labels)|
  {
    NoRepeatsCount(d);
    forall x | x in NameSet(labels)
      ensures x in d
    {
      var l :| l in labels && LowercaseAscii(l.text) == x;
      assert l in multiset(sorted);
      var p :| 0 <= p < |sorted| && sorted[p] == l;
      assert names[p] == x;
    }
    forall x | x in d
      ensures x in NameSet(labels)
    {
      NameComesFromLabel(labels, sorted, names, x);
    }
    assert (set x | x in d) == NameSet(labels);
  }

  /** Some label carrying `name` is at least as confident as `l`. */
  ghost predicate OutranksOrTies(labels: seq<Label>, name: string, l: Label) {
    exists m :: m in labels && LowercaseAscii(m.text) == name && m.confidence >= l.confidence
  }

  /**
   * The label post-processing of `classifyImage`: most confident first,
   * lower-cased, duplicates dropped, at most six. Every kept name comes from
   * some label, none repeats, and each name is backed by a label at least as
   * confident as every label of any name after it.
   */
  function PostProcessLabels(labels: seq<Label>): (r: seq<string>)
    ensures |r| <= MAX_LABELS
    ensures forall i, j :: 0 <= i < j < |r| ==> r[i] != r[j]
    ensures forall i :: 0 <= i < |r| ==> exists l :: l in labels && LowercaseAscii(l.text) == r[i]
    ensures forall i, j, l :: 0 <= i < j < |r| && l in labels && LowercaseAscii(l.text) == r[j] ==>
      OutranksOrTies(labels, r[i], l)
    ensures forall l :: l in labels && LowercaseAscii(l.text) !in r ==>
      |r| == MAX_LABELS && forall i :: 0 <= i < |r| ==> OutranksOrTies(labels, r[i], l)
    ensures |r| == if |NameSet(labels)| <= MAX_LABELS then |NameSet(labels)| else MAX_LABELS
  {
    var sorted := SortByConfidence(labels);
    var names := LabelNames(sorted);
    var d := Distinct(names);
    var r := if |d| <= MAX_LABELS then d else d[..MAX_LABELS];
    KeptPrefix(d, r);
    PostProcessFacts(labels, sorted, names, d, r);
    PostProcessComplete(labels, sorted, names, d, r);
    DistinctCount(labels, sorted, names, d);
    r
  }

  /** Each kept name is the name of some label. */
  lemma NameComesFromLabel(labels: seq<Label>, sorted: seq<Label>, names: seq<string>, x: string)
    requires multiset(sorted) == multiset(labels) && names == LabelNames(sorted) && x in names
    ensures exists l :: l in labels && LowercaseAscii(l.text) == x
  {
    var k := FirstIndex(names, x);
    assert sorted[k] in multiset(labels);
  }

  /**
   * In the sorted list, the first label named `a` is at least as confident
   * as every label named `b` when `a` first occurs before `b`.
   */
  lemma FirstOccurrenceOutranks(labels: seq<Label>, sorted: seq<Label>, names: seq<string>, a: string, b: string, l: Label)
    requires SortedByConfidence(sorted) && multiset(sorted) == multiset(labels) && names == LabelNames(sorted)
    requires a in names && b in names && FirstIndex(names, a) < FirstIndex(names, b)
    requires l in labels && LowercaseAscii(l.text) == b
    ensures OutranksOrTies(labels, a, l)
  {
    var p := FirstIndex(names, a);
    var q := FirstIndex(names, b);
    assert l in multiset(sorted);
    var k :| 0 <= k < |sorted| && sorted[k] == l;
    assert names[k] == b;
    assert forall m :: 0 <= m < q ==> names[..q][m] == names[m];
    assert k >= q;
    assert sorted[p] in multiset(labels);
  }

  /** At most six of the distinct names, in their order: still distinct. */
  lemma KeptPrefix(d: seq<string>, r: seq<string>)
    requires forall i, j :: 0 <= i < j < |d| ==> d[i] != d[j]
    requires r == if |d| <= MAX_LABELS then d else d[..MAX_LABELS]
    ensures |r| <= MAX_LABELS && |r| <= |d|
    ensures forall i :: 0 <= i < |r| ==> r[i] == d[i]
    ensures forall i, j :: 0 <= i < j < |r| ==> r[i] != r[j]
  {
  }

  lemma PostProcessFacts(labels: seq<Label>, sorted: seq<Label>, names: seq<string>, d: seq<string>, r: seq<string>)
    requires sorted == SortByConfidence(labels) && names == LabelNames(sorted) && d == Distinct(names)
    requires |r| <= |d| && forall i :: 0 <= i < |r| ==> r[i] == d[i]
    ensures forall i :: 0 <= i < |r| ==> exists l :: l in labels && LowercaseAscii(l.text) == r[i]
    ensures forall i, j, l :: 0 <= i < j < |r| && l in labels && LowercaseAscii(l.text) == r[j] ==>
      OutranksOrTies(labels, r[i], l)
  {
    assert forall i :: 0 <= i < |r| ==> d[i] in names;
    forall i | 0 <= i < |r|
      ensures exists l :: l in labels && LowercaseAscii(l.text) == r[i]
    {
      NameComesFromLabel(labels, sorted, names, r[i]);
    }
    DistinctInFirstOccurrenceOrder(names);
    forall i, j, l | 0 <= i < j < |r| && l in labels && LowercaseAscii(l.text) == r[j]
      ensures OutranksOrTies(labels, r[i], l)
    {
      FirstOccurrenceOutranks(labels, sorted, names, r[i], r[j], l);
    }
  }

  /**
   * A label whose name was not kept was cut off by the limit of six, and
   * every kept name is backed by a label at least as confident as it.
   */
  lemma PostProcessComplete(labels: seq<Label>, sorted: seq<Label>, names: seq<string>, d: seq<string>, r: seq<string>)
    requires sorted == SortByConfidence(labels) && names == LabelNames(sorted) && d == Distinct(names)
    requires r == if |d| <= MAX_LABELS then d else d[..MAX_LABELS]
    ensures forall l :: l in labels && LowercaseAscii(l.text) !in r ==>
      |r| == MAX_LABELS && forall i :: 0 <= i < |r| ==> OutranksOrTies(labels, r[i], l)
  {
    DistinctInFirstOccurrenceOrder(names);
    forall l | l in labels && LowercaseAscii(l.text) !in r
      ensures |r| == MAX_LABELS && forall i :: 0 <= i < |r| ==> OutranksOrTies(labels, r[i], l)
    {
      DroppedName(labels, sorted, names, d, r, l);
    }
  }

  /** One label whose name was not kept. */
  lemma DroppedName(labels: seq<Label>, sorted: seq<Label>, names: seq<string>, d: seq<string>, r: seq<string>, l: Label)
    requires SortedByConfidence(sorted) && multiset(sorted) == multiset(labels) && names == LabelNames(sorted)
    requires forall x :: x in d <==> x in names
    requires forall i, j :: 0 <= i < j < |d| ==> FirstIndex(names, d[i]) < FirstIndex(names, d[j])
    requires r == if |d| <= MAX_LABELS then d else d[..MAX_LABELS]
    requires l in labels && LowercaseAscii(l.text) !in r
    ensures |r| == MAX_LABELS && forall i :: 0 <= i < |r| ==> OutranksOrTies(labels, r[i], l)
  {
    var n := LowercaseAscii(l.text);
    assert l in multiset(sorted);
    var p :| 0 <= p < |sorted| && sorted[p] == l;
    assert names[p] == n;
    assert n in names;
    assert n in d;
    var k :| 0 <= k < |d| && d[k] == n;
    assert |d| > MAX_LABELS && k >= MAX_LABELS;
    forall i | 0 <= i < |r|
      ensures OutranksOrTies(labels, r[i], l)
    {
      assert r[i] == d[i];
      FirstOccurrenceOutranks(labels, sorted, names, r[i], n, l);
    }
  }

  /** How the labeler's task ended. */
  datatype LabelerOutcome = Labelled(labels: seq<Label>) | LabelerFailed

  /** `classifyImage`: no preview bitmap or a failing labeler gives no labels. */
  function ClassifyImage(hasBitmap: bool, outcome: LabelerOutcome): (r: seq<string>)
    ensures !hasBitmap || outcome.LabelerFailed? ==> r == []
    ensures hasBitmap && outcome.Labelled? ==> r == PostProcessLabels(outcome.labels)
  {
    if !hasBitmap then []
    else
      match outcome
      case LabelerFailed => []
      case Labelled(labels) => PostProcessLabels(labels)
  }

  // ---------------------------------------------------------------------
  // processShareIntent and the activity's visible state
  // ---------------------------------------------------------------------

  /** How reading the shared stream ended: the bytes read, with or without a decodable preview. */
  datatype ReadOutcome = ImageRead(hasPreview: bool) | ReadFailed(message: Option<string>)

  /** The detail line of an error. */
  datatype Detail = GenericErrorText | CheckSettingsText | Message(text: string)

  /** The arguments `startUpload` is called with. */
  datatype UploadArgs = UploadArgs(boardId: string, token: string, pinryUrl: string, originalUrl: Option<string>, tags: seq<string>)

  /** Where `processShareIntent` ends. */
  datatype ShareEnd =
    | Closed
    | ShowsError(detail: Detail)
    | UploadStarted(args: UploadArgs, tagsLine: TagsLine)

  /**
   * `processShareIntent` given the stored settings, the read and the
   * labeler's outcome. An upload starts only for an image share with a
   * stream, a token and a URL, once the image was read; it carries the
   * stored board id as it is and the normalised tags.
   */
  function ProcessShare(action: string, mimeType: Option<string>, hasImageUri: bool, sharedUrl: Option<string>,
                        token: string, boardId: string, pinryUrl: string, read: ReadOutcome, labeler: LabelerOutcome): (r: ShareEnd)
    ensures r.Closed? <==> !IsImageShare(action, mimeType)
    ensures r.UploadStarted? <==>
      ShareGate(action, mimeType, hasImageUri, token, pinryUrl) == Proceed && read.ImageRead?
    ensures r.UploadStarted? ==>
      token != [] && pinryUrl != [] && r.args.boardId == boardId && r.args.token == token && r.args.pinryUrl == pinryUrl
      && r.args.originalUrl == sharedUrl
    ensures r.UploadStarted? ==>
      var labels := ClassifyImage(read.hasPreview, labeler);
      r.args.tags == NormalizeTags(labels) && r.tagsLine == TagsLineFor(labels)
    ensures ShareGate(action, mimeType, hasImageUri, token, pinryUrl) == MissingSettings ==> r == ShowsError(CheckSettingsText)
    ensures ShareGate(action, mimeType, hasImageUri, token, pinryUrl) == MissingImage ==> r == ShowsError(GenericErrorText)
    ensures ShareGate(action, mimeType, hasImageUri, token, pinryUrl) == Proceed && read.ReadFailed? ==>
      r == ShowsError(if read.message.Some? then Message(read.message.value) else GenericErrorText)
  {
    match ShareGate(action, mimeType, hasImageUri, token, pinryUrl)
    case Close => Closed
    case MissingImage => ShowsError(GenericErrorText)
    case MissingSettings => ShowsError(CheckSettingsText)
    case Proceed =>
      match read
      case ReadFailed(m) => ShowsError(if m.Some? then Message(m.value) else GenericErrorText)
      case ImageRead(hasPreview) =>
        var labels := ClassifyImage(hasPreview, labeler);
        UploadStarted(UploadArgs(boardId, token, pinryUrl, sharedUrl, NormalizeTags(labels)), TagsLineFor(labels))
  }

  /** A configured server with no board still uploads. */
  lemma EmptyBoardStillUploads(token: string, pinryUrl: string, labeler: LabelerOutcome)
    requires token != [] && pinryUrl != []
    ensures ProcessShare(ACTION_SEND, Some("image/png"), true, None, token, [], pinryUrl, ImageRead(true), labeler).UploadStarted?
  {
    assert "image/png"[..6] == "image/";
  }

  /** The status line. */
  datatype Status = Starting | UploadingImage | Success | Failure

  /** `updateStatus` hides a detail that is blank. */
  function ShownDetail(d: Detail): (r: Option<Detail>)
    ensures r.None? <==> d.Message? && IsBlank(d.text)
    ensures r.Some? ==> r.value == d
  {
    if d.Message? && IsBlank(d.text) then None else Some(d)
  }

  class ShareReceiverActivity {
    var finished: bool
    var status: Status
    var detail: Option<Detail>
    var closeButtonVisible: bool
    var tagsLine: Option<TagsLine>
    var upload: Option<UploadArgs>
    var finishingScheduled: bool
    /** Finish timers launched so far. */
    var timersLaunched: nat
    /** A launched timer that has not fired yet. */
    var timerPending: bool

    /** At most one timer is ever launched, and exactly when finishing is scheduled. */
    predicate Valid()
      reads this
    {
      timersLaunched == (if finishingScheduled then 1 else 0) && (timerPending ==> finishingScheduled)
    }

    constructor ()
      ensures Valid() && !finished && status == Starting && !finishingScheduled && upload.None?
    {
      finished := false;
      status := Starting;
      detail := None;
      closeButtonVisible := false;
      tagsLine := None;
      upload := None;
      finishingScheduled := false;
      timersLaunched := 0;
      timerPending := false;
    }

    /** `showError`: the failure title, the detail unless blank, and the close button. */
    method ShowError(d: Detail)
      modifies this
      ensures status == Failure && detail == ShownDetail(d) && closeButtonVisible
      ensures finished == old(finished) && tagsLine == old(tagsLine) && upload == old(upload)
      ensures finishingScheduled == old(finishingScheduled) && timersLaunched == old(timersLaunched)
      ensures timerPending == old(timerPending)
    {
      status := Failure;
      detail := ShownDetail(d);
      closeButtonVisible := true;
    }

    /** `processShareIntent`, ending as `ProcessShare` says. */
    method ProcessShareIntent(action: string, mimeType: Option<string>, hasImageUri: bool, sharedUrl: Option<string>,
                              token: string, boardId: string, pinryUrl: string, read: ReadOutcome, labeler: LabelerOutcome)
      requires Valid() && !finished && upload.None?
      modifies this
      ensures Valid()
      ensures var e := ProcessShare(action, mimeType, hasImageUri, sharedUrl, token, boardId, pinryUrl, read, labeler);
        (e.Closed? ==> finished && upload.None?)
        && (e.ShowsError? ==> !finished && status == Failure && detail == ShownDetail(e.detail) && closeButtonVisible && upload.None?)
        && (e.UploadStarted? ==> !finished && status == UploadingImage && detail.None? && tagsLine == Some(e.tagsLine) && upload == Some(e.args))
      ensures finishingScheduled == old(finishingScheduled) && timersLaunched == old(timersLaunched)
    {
      var gate := ShareGate(action, mimeType, hasImageUri, token, pinryUrl);
      if gate == Close {
        finished := true;
        return;
      }
      if gate == MissingImage {
        ShowError(GenericErrorText);
        return;
      }
      if gate == MissingSettings {
        ShowError(CheckSettingsText);
        return;
      }
      match read {
        case ReadFailed(m) =>
          ShowError(if m.Some? then Message(m.value) else GenericErrorText);
        case ImageRead(hasPreview) =>
          var labels := ClassifyImage(hasPreview, labeler);
          tagsLine := Some(TagsLineFor(labels));
          status := UploadingImage;
          detail := None;
          upload := Some(UploadArgs(boardId, token, pinryUrl, sharedUrl, NormalizeTags(labels)));
      }
    }

    /** `scheduleFinish`: a second call does nothing. */
    method ScheduleFinish()
      requires Valid()
      modifies this
      ensures Valid() && finishingScheduled && timersLaunched == 1
      ensures old(finishingScheduled) ==> timerPending == old(timerPending)
      ensures !old(finishingScheduled) ==> timerPending
      ensures finished == old(finished) && status == old(status) && detail == old(detail)
      ensures closeButtonVisible == old(closeButtonVisible) && tagsLine == old(tagsLine) && upload == old(upload)
    {
      if finishingScheduled {
        return;
      }
      finishingScheduled := true;
      timersLaunched := timersLaunched + 1;
      timerPending := true;
    }

    /** The upload's `onSuccess`: the success state, no close button, and the finish timer. */
    method OnUploadSuccess()
      requires Valid()
      modifies this
      ensures Valid() && status == Success && detail.None? && !closeButtonVisible
      ensures finishingScheduled && timersLaunched == 1
      ensures old(finishingScheduled) ==> timerPending == old(timerPending)
      ensures !old(finishingScheduled) ==> timerPending
      ensures finished == old(finished) && tagsLine == old(tagsLine) && upload == old(upload)
    {
      status := Success;
      detail := None;
      closeButtonVisible := false;
      ScheduleFinish();
    }

    /** The upload's `onFailure(error)`. */
    method OnUploadFailure(error: string)
      requires Valid()
      modifies this
      ensures Valid() && status == Failure && detail == ShownDetail(Message(error)) && closeButtonVisible
      ensures finishingScheduled == old(finishingScheduled) && timersLaunched == old(timersLaunched)
      ensures timerPending == old(timerPending)
      ensures finished == old(finished) && tagsLine == old(tagsLine) && upload == old(upload)
    {
      ShowError(Message(error));
    }

    /** The close button finishes the activity. */
    method OnCloseClicked()
      requires Valid()
      modifies this
      ensures Valid() && finished
      ensures finishingScheduled == old(finishingScheduled) && timerPending == old(timerPending)
      ensures timersLaunched == old(timersLaunched)
      ensures status == old(status) && detail == old(detail) && closeButtonVisible == old(closeButtonVisible)
      ensures tagsLine == old(tagsLine) && upload == old(upload)
    {
      finished := true;
    }

    /** The 1.5 s delay is over: the activity finishes. */
    method FinishTimerFired()
      requires Valid() && timerPending
      modifies this
      ensures Valid() && finished && !timerPending && timersLaunched == old(timersLaunched)
      ensures finishingScheduled == old(finishingScheduled)
      ensures status == old(status) && detail == old(detail) && closeButtonVisible == old(closeButtonVisible)
      ensures tagsLine == old(tagsLine) && upload == old(upload)
    {
      timerPending := false;
      finished := true;
    }
  }
}
