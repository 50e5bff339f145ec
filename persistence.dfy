/** The saved plan: the record written for a session, its file name, loading
    it back, and listing the saved topics (`sync_plan_data`, `load_plan_data`,
    `load_plan_data_by_topic`, `get_plan_list`). JSON encoding is taken as the
    identity on the record, and the plans directory as a map from file name to
    record. */
module Persistence {
  import opened Wrappers
  import opened Messages
  import opened Text

  /** The JSON values a record holds. */
  datatype Json = JNull | JStr(str: string) | JMessages(items: seq<Message>)

  /** A decoded JSON object. */
  type JsonObject = map<string, Json>

  datatype LoadError =
    | FileNotFound(name: string)   // no record under that file name
    | MissingKey(key: string)      // the record lacks a key (Python's KeyError)
    | WrongType(key: string)       // a value of a JSON type the session field cannot hold

  /** The part of the session a record saves: topic, the four preferences,
      the outline (absent is the empty outline) and the conversation. */
  datatype PlanData = PlanData(
    topic: string,
    depth: string,
    style: string,
    tone: string,
    framework: string,
    planOutline: string,
    messages: seq<Message>)

  const TopicKey: string := "topic"
  const DepthKey: string := "depth"
  const StyleKey: string := "style"
  const ToneKey: string := "tone"
  const FrameworkKey: string := "framework"
  const OutlineKey: string := "plan_outline"
  const MessagesKey: string := "messages"

  const RecordKeys: set<string> := {TopicKey, DepthKey, StyleKey, ToneKey, FrameworkKey, OutlineKey, MessagesKey}

  /** What follows the topic in a record's file name. */
  const Suffix: string := "_plan_data.json"

  /** The record's file name: the topic, then the suffix. */
  function FileName(topic: string): (r: string)
    ensures |r| == |topic| + |Suffix|
    ensures r[..|topic|] == topic
    ensures OccursAt(Suffix, r, |topic|)
  {
    topic + Suffix
  }

  /** The record written for `p`: exactly the seven keys, each holding the
      session field of that name. */
  function Encode(p: PlanData): (obj: JsonObject)
    ensures obj.Keys == RecordKeys
    ensures forall k | k in obj :: obj[k] != JNull
  {
    map[TopicKey := JStr(p.topic),
        DepthKey := JStr(p.depth),
        StyleKey := JStr(p.style),
        ToneKey := JStr(p.tone),
        FrameworkKey := JStr(p.framework),
        OutlineKey := JStr(p.planOutline),
        MessagesKey := JMessages(p.messages)]
  }

  /** Reads a text field; a missing key raises. */
  function StringField(obj: JsonObject, key: string): Result<string, LoadError>
  {
    if key !in obj then Failure(MissingKey(key))
    else match obj[key]
      case JStr(s) => Success(s)
      case _ => Failure(WrongType(key))
  }

  /** Reads the outline; a stored null is the absent outline. */
  function OutlineField(obj: JsonObject): Result<string, LoadError>
  {
    if OutlineKey !in obj then Failure(MissingKey(OutlineKey))
    else match obj[OutlineKey]
      case JStr(s) => Success(s)
      case JNull => Success("")
      case JMessages(_) => Failure(WrongType(OutlineKey))
  }

  /** Reads the conversation; `or []` turns null (and an empty text) into the
      empty list. */
  function MessagesField(obj: JsonObject): Result<seq<Message>, LoadError>
  {
    if MessagesKey !in obj then Failure(MissingKey(MessagesKey))
    else match obj[MessagesKey]
      case JMessages(ms) => Success(ms)
      case JNull => Success([])
      case JStr(s) => if s == "" then Success([]) else Failure(WrongType(MessagesKey))
  }

  /** The session after loading, and the error raised on the way, if any. */
  datatype Loaded = Loaded(data: PlanData, error: Option<LoadError>)

  /** Loads `obj` over `cur` field by field, in the order topic, depth, style,
      tone, framework, outline, messages. An empty object changes nothing; a
      missing key stops the load there, with the earlier fields already
      replaced. */
  function Load(cur: PlanData, obj: JsonObject): (r: Loaded)
    ensures obj == map[] ==> r == Loaded(cur, None)
    ensures r.error.None? && obj != map[] ==> RecordKeys <= obj.Keys
  {
    if obj == map[] then Loaded(cur, None) else
    var topic := StringField(obj, TopicKey);
    if topic.Failure? then Loaded(cur, Some(topic.error)) else
    var c1 := cur.(topic := topic.value);
    var depth := StringField(obj, DepthKey);
    if depth.Failure? then Loaded(c1, Some(depth.error)) else
    var c2 := c1.(depth := depth.value);
    var style := StringField(obj, StyleKey);
    if style.Failure? then Loaded(c2, Some(style.error)) else
    var c3 := c2.(style := style.value);
    var tone := StringField(obj, ToneKey);
    if tone.Failure? then Loaded(c3, Some(tone.error)) else
    var c4 := c3.(tone := tone.value);
    var framework := StringField(obj, FrameworkKey);
    if framework.Failure? then Loaded(c4, Some(framework.error)) else
    var c5 := c4.(framework := framework.value);
    var outline := OutlineField(obj);
    if outline.Failure? then Loaded(c5, Some(outline.error)) else
    var c6 := c5.(planOutline := outline.value);
    var messages := MessagesField(obj);
    if messages.Failure? then Loaded(c6, Some(messages.error)) else
    Loaded(c6.(messages := messages.value), None)
  }

  /** The plans directory after `sync_plan_data`: unchanged without an outline,
      otherwise the topic's record (over)written with the session. */
  function Sync(files: map<string, JsonObject>, p: PlanData): (r: map<string, JsonObject>)
    ensures p.planOutline == "" ==> r == files
    ensures p.planOutline != "" ==> FileName(p.topic) in r && r[FileName(p.topic)] == Encode(p)
    ensures forall n :: n != FileName(p.topic) ==> (n in r <==> n in files)
    ensures forall n :: n != FileName(p.topic) && n in files ==> r[n] == files[n]
  {
    if p.planOutline == "" then files else files[FileName(p.topic) := Encode(p)]
  }

  /** `load_plan_data_by_topic`: nothing for an empty topic, an error when the
      record does not exist, otherwise `Load` of the stored record. */
  function LoadByTopic(cur: PlanData, files: map<string, JsonObject>, topic: string): (r: Loaded)
    ensures topic == "" ==> r == Loaded(cur, None)
    ensures topic != "" && FileName(topic) !in files ==> r.data == cur && r.error == Some(FileNotFound(FileName(topic)))
    ensures topic != "" && FileName(topic) in files ==> r == Load(cur, files[FileName(topic)])
  {
    if topic == "" then Loaded(cur, None)
    else if FileName(topic) !in files then Loaded(cur, Some(FileNotFound(FileName(topic))))
    else Load(cur, files[FileName(topic)])
  }

  /** Python's `s.split(sep)[0]`: the text before the first occurrence of
      `sep`, or all of `s` when there is none. */
  function BeforeFirst(s: string, sep: string): (r: string)
    requires sep != ""
    ensures r <= s
    ensures forall j :: 0 <= j < |r| ==> !OccursAt(sep, s, j)
    ensures |r| < |s| ==> OccursAt(sep, s, |r|)
    decreases |s|
  {
    if |s| < |sep| then s
    else if s[..|sep|] == sep then ""
    else
      assert s[0..|sep|] == s[..|sep|];
      OccursShift(s, sep);
      [s[0]] + BeforeFirst(s[1..], sep)
  }

  /** Occurrences in `s` after its first character are those in `s[1..]`, shifted by one. */
  lemma OccursShift(s: string, w: string)
    requires |s| >= 1
    ensures forall j: nat | j >= 1 :: OccursAt(w, s[1..], j - 1) <==> OccursAt(w, s, j)
  {
    forall j: nat | j >= 1
      ensures OccursAt(w, s[1..], j - 1) <==> OccursAt(w, s, j)
    {
      if j - 1 + |w| <= |s| - 1 {
        assert s[1..][j - 1..j - 1 + |w|] == s[j..j + |w|];
      }
    }
  }

  /** The text before the first separator does not contain the separator. */
  lemma SeparatorAbsentBefore(s: string, sep: string)
    requires sep != ""
    ensures !Occurs(sep, BeforeFirst(s, sep))
  {
    var r := BeforeFirst(s, sep);
    if j: nat :| OccursAt(sep, r, j) {
      assert s[j..j + |sep|] == r[j..j + |sep|];
      assert OccursAt(sep, s, j);
    }
  }

  /** The topics `get_plan_list` offers for the file names found. */
  function PlanList(names: seq<string>): (r: seq<string>)
    ensures |r| == |names|
    ensures forall i :: 0 <= i < |names| ==> r[i] == BeforeFirst(names[i], Suffix)
    ensures forall i :: 0 <= i < |names| ==> r[i] <= names[i] && !Occurs(Suffix, r[i])
  {
    forall i | 0 <= i < |names|
      ensures !Occurs(Suffix, BeforeFirst(names[i], Suffix))
    {
      SeparatorAbsentBefore(names[i], Suffix);
    }
    seq(|names|, i requires 0 <= i < |names| => BeforeFirst(names[i], Suffix))
  }

  /** No proper end of the suffix is also a beginning of it. */
  lemma SuffixUnbordered(m: nat)
    requires 0 < m < |Suffix|
    ensures Suffix[m..] != Suffix[..|Suffix| - m]
  {
    if m == 5 {
      assert Suffix[m..][1] != Suffix[..|Suffix| - m][1];
    } else {
      assert Suffix[m..][0] != Suffix[..|Suffix| - m][0];
    }
  }

  /** A topic that does not contain the suffix is listed under its own name. */
  lemma ListingRecoversTopic(t: string)
    requires !Occurs(Suffix, t)
    ensures BeforeFirst(FileName(t), Suffix) == t
  {
    var s := FileName(t);
    var r := BeforeFirst(s, Suffix);
    assert OccursAt(Suffix, s, |t|);
    if |r| < |t| {
      var j := |r|;
      assert OccursAt(Suffix, s, j);
      if j + |Suffix| <= |t| {
        assert t[j..j + |Suffix|] == s[j..j + |Suffix|];
        assert OccursAt(Suffix, t, j);
        assert false;
      } else {
        var m := |t| - j;
        assert Suffix[m..] == s[|t|..j + |Suffix|];
        assert s[|t|..j + |Suffix|] == Suffix[..|Suffix| - m];
        SuffixUnbordered(m);
        assert false;
      }
    }
    assert |r| == |t|;
    assert r == s[..|t|];
  }

  /** A topic that contains the suffix is listed under a shorter name, whose
      own file is not the topic's, so loading the listed name does not find
      the topic's record. */
  lemma ListingTruncatesSuffixTopic(t: string)
    requires Occurs(Suffix, t)
    ensures |BeforeFirst(FileName(t), Suffix)| < |t|
    ensures FileName(BeforeFirst(FileName(t), Suffix)) != FileName(t)
  {
    var i: nat :| OccursAt(Suffix, t, i);
    assert FileName(t)[i..i + |Suffix|] == t[i..i + |Suffix|];
    assert OccursAt(Suffix, FileName(t), i);
  }

  /** Loading what was saved restores the session field for field, whatever
      the session loaded over. */
  lemma LoadEncodeRoundTrip(cur: PlanData, p: PlanData)
    ensures Load(cur, Encode(p)) == Loaded(p, None)
  {
    var obj := Encode(p);
    assert TopicKey in obj;
    assert obj != map[];
  }

  /** A stored null conversation loads as the empty one. */
  lemma LoadNullMessages(cur: PlanData, p: PlanData)
    ensures Load(cur, Encode(p)[MessagesKey := JNull]) == Loaded(p.(messages := []), None)
  {
    var obj := Encode(p)[MessagesKey := JNull];
    assert TopicKey in obj;
    assert obj != map[];
  }

  /** A non-empty record that lacks one of the seven keys raises. */
  lemma LoadMissingKeyRaises(cur: PlanData, obj: JsonObject, k: string)
    requires obj != map[] && k in RecordKeys && k !in obj
    ensures Load(cur, obj).error.Some?
  {
  }

  /** A record with a topic but no depth has already replaced the topic when
      it raises. */
  lemma LoadStopsMidway(cur: PlanData, topic: string)
    ensures Load(cur, map[TopicKey := JStr(topic)]) == Loaded(cur.(topic := topic), Some(MissingKey(DepthKey)))
  {
    var obj := map[TopicKey := JStr(topic)];
    assert TopicKey in obj && obj != map[];
    assert DepthKey != TopicKey;
  }

  /** Saving twice under one topic keeps only the last save. */
  lemma SyncLastWriteWins(files: map<string, JsonObject>, p: PlanData, q: PlanData)
    requires p.topic == q.topic && q.planOutline != ""
    ensures Sync(Sync(files, p), q) == Sync(files, q)
  {
  }

  /** Saving touches no record but the session topic's own. */
  lemma SyncTouchesOneRecord(files: map<string, JsonObject>, p: PlanData, name: string)
    requires name != FileName(p.topic)
    ensures name in Sync(files, p) <==> name in files
    ensures name in files ==> Sync(files, p)[name] == files[name]
  {
  }

  /** A session saved with an outline and a topic is restored by loading its
      topic, over any session. */
  lemma SaveLoadRoundTrip(cur: PlanData, files: map<string, JsonObject>, p: PlanData)
    requires p.planOutline != "" && p.topic != ""
    ensures LoadByTopic(cur, Sync(files, p), p.topic) == Loaded(p, None)
  {
    LoadEncodeRoundTrip(cur, p);
  }

  /** Once saved, a topic that does not contain the suffix is among the topics
      listed for the directory's file names. */
  lemma SavedTopicIsListed(files: map<string, JsonObject>, p: PlanData, names: seq<string>)
    requires p.planOutline != "" && !Occurs(Suffix, p.topic)
    requires forall n :: n in names <==> n in Sync(files, p)
    ensures p.topic in PlanList(names)
  {
    assert FileName(p.topic) in Sync(files, p);
    ListedTopics(names, Sync(files, p));
  }

  /** Listing file names `names` of a directory holding `files`: every topic
      saved there that does not contain the suffix is listed, and every listed
      topic comes from a file there. */
  lemma ListedTopics(names: seq<string>, files: map<string, JsonObject>)
    requires forall n :: n in names <==> n in files
    ensures forall t :: FileName(t) in files && !Occurs(Suffix, t) ==> t in PlanList(names)
    ensures forall x :: x in PlanList(names) ==> exists n :: n in files && BeforeFirst(n, Suffix) == x
    ensures forall n :: n in files ==> BeforeFirst(n, Suffix) in PlanList(names)
  {
    var topics := PlanList(names);
    forall t | FileName(t) in files && !Occurs(Suffix, t)
      ensures t in topics
    {
      var i :| 0 <= i < |names| && names[i] == FileName(t);
      ListingRecoversTopic(t);
      assert topics[i] == t;
    }
    forall x | x in topics
      ensures exists n :: n in files && BeforeFirst(n, Suffix) == x
    {
      var i :| 0 <= i < |topics| && topics[i] == x;
      assert names[i] in files;
    }
    forall n | n in files
      ensures BeforeFirst(n, Suffix) in topics
    {
      var i :| 0 <= i < |names| && names[i] == n;
      assert topics[i] == BeforeFirst(n, Suffix);
    }
  }

  /** The plans directory: file name to stored record. */
  class PlanDirectory {
    var files: map<string, JsonObject>

    constructor (files: map<string, JsonObject>)
      ensures this.files == files
    {
      this.files := files;
    }

    /** `os.listdir`: every file once, in an order the model leaves open. */
    method ListDir() returns (names: seq<string>)
      ensures forall n :: n in names <==> n in files
      ensures forall i, j :: 0 <= i < j < |names| ==> names[i] != names[j]
      ensures |names| == |files|
    {
      names := [];
      var rest := files.Keys;
      while rest != {}
        invariant rest <= files.Keys
        invariant forall n :: n in names <==> n in files && n !in rest
        invariant forall i, j :: 0 <= i < j < |names| ==> names[i] != names[j]
        invariant |names| + |rest| == |files.Keys|
        decreases rest
      {
        var n :| n in rest;
        names := names + [n];
        rest := rest - {n};
      }
    }
  }

  /** `get_plan_list`: one entry per file, the text before the suffix, for
      the directory's file names `names` in the order listed; every
      file's name is listed, every listed name comes from a file, every saved
      topic that does not contain the suffix is listed under itself, and an
      empty directory lists nothing. */
  method GetPlanList(dir: PlanDirectory) returns (topics: seq<string>, ghost names: seq<string>)
    ensures forall n :: n in names <==> n in dir.files
    ensures forall i, j :: 0 <= i < j < |names| ==> names[i] != names[j]
    ensures topics == PlanList(names)
    ensures |topics| == |dir.files|
    ensures dir.files == map[] ==> topics == []
    ensures forall t :: FileName(t) in dir.files && !Occurs(Suffix, t) ==> t in topics
    ensures forall x :: x in topics ==> exists n :: n in dir.files && BeforeFirst(n, Suffix) == x
    ensures forall n :: n in dir.files ==> BeforeFirst(n, Suffix) in topics
  {
    var listed := dir.ListDir();
    names := listed;
    topics := PlanList(listed);
    ListedTopics(names, dir.files);
  }
}
