/** The stored record and its JSON form. */
module Records {
  import opened Common

  /** A JSON value; a floating-point number is named by its bits. */
  datatype Json =
    | Null
    | Bool(flag: bool)
    | Int(number: int)
    | Float(bits: nat)
    | Str(text: string)
    | Arr(elements: seq<Json>)
    | Obj(members: map<string, Json>)

  datatype Item = Item(
    platform: string, itemId: string, itemType: string, authorId: string, authorName: string,
    contentText: string, contentMedia: seq<string>, url: string, publishedAt: string, fetchedAt: string,
    metrics: Json, score: Int32, reason: string, summary: string, tags: seq<string>, keyPoints: seq<string>)

  function Fresh(): Item {
    Item("", "", "post", "", "", "", [], "", "", "", Null, 0, "", "", [], [])
  }

  function Strings(ss: seq<string>): (j: seq<Json>) {
    seq(|ss|, i requires 0 <= i < |ss| => Str(ss[i]))
  }

  function ToJson(item: Item): Json {
    Obj(map[
      "platform" := Str(item.platform),
      "item_id" := Str(item.itemId),
      "item_type" := Str(item.itemType),
      "author_id" := Str(item.authorId),
      "author_name" := Str(item.authorName),
      "content_text" := Str(item.contentText),
      "content_media" := Arr(Strings(item.contentMedia)),
      "url" := Str(item.url),
      "published_at" := Str(item.publishedAt),
      "fetched_at" := Str(item.fetchedAt),
      "metrics" := item.metrics,
      "llm_relevance_score" := Int(item.score),
      "llm_relevance_reason" := Str(item.reason),
      "llm_summary" := Str(item.summary),
      "llm_tags" := Arr(Strings(item.tags)),
      "llm_key_points" := Arr(Strings(item.keyPoints))])
  }

  // ---- reading ----

  /** j.value(key, fallback) for a string; None is the type error of a value of another type. */
  function StringOr(o: map<string, Json>, key: string, fallback: string): Option<string> {
    if key !in o then Some(fallback)
    else if o[key].Str? then Some(o[key].text) else None
  }

  predicate AllStrings(es: seq<Json>) {
    forall i :: 0 <= i < |es| ==> es[i].Str?
  }

  function Texts(es: seq<Json>): seq<string>
    requires AllStrings(es)
  {
    seq(|es|, i requires 0 <= i < |es| => es[i].text)
  }

  /** A list of strings; a member that is absent leaves the list as it was. */
  function ListOr(o: map<string, Json>, key: string, kept: seq<string>): Option<seq<string>> {
    if key !in o then Some(kept)
    else if o[key].Arr? && AllStrings(o[key].elements) then Some(Texts(o[key].elements)) else None
  }

  /** j.value(key, 0): any number or boolean is converted to int; toInt converts a double. */
  function IntOr(o: map<string, Json>, key: string, toInt: nat -> Int32): Option<Int32> {
    if key !in o then Some(0)
    else
      match o[key]
      case Int(n) => Some(Wrap32(n))
      case Bool(b) => Some(if b then 1 else 0)
      case Float(bits) => Some(toInt(bits))
      case _ => None
  }

  /** The members that are present have the types that the record wants. */
  predicate WellTyped(j: Json, toInt: nat -> Int32) {
    && j.Obj?
    && (var o := j.members;
        && StringOr(o, "platform", "").Some? && StringOr(o, "item_id", "").Some? && StringOr(o, "item_type", "").Some?
        && StringOr(o, "author_id", "").Some? && StringOr(o, "author_name", "").Some? && StringOr(o, "content_text", "").Some?
        && ListOr(o, "content_media", []).Some? && StringOr(o, "url", "").Some? && StringOr(o, "published_at", "").Some?
        && StringOr(o, "fetched_at", "").Some? && IntOr(o, "llm_relevance_score", toInt).Some?
        && StringOr(o, "llm_relevance_reason", "").Some? && StringOr(o, "llm_summary", "").Some?
        && ListOr(o, "llm_tags", []).Some? && ListOr(o, "llm_key_points", []).Some?)
  }

  /** The record that a well-typed object is read into, over the record `before`. */
  function Decoded(j: Json, toInt: nat -> Int32, before: Item): Item
    requires WellTyped(j, toInt)
  {
    var o := j.members;
    Item(StringOr(o, "platform", "").value, StringOr(o, "item_id", "").value, StringOr(o, "item_type", "post").value,
         StringOr(o, "author_id", "").value, StringOr(o, "author_name", "").value, StringOr(o, "content_text", "").value,
         ListOr(o, "content_media", before.contentMedia).value, StringOr(o, "url", "").value,
         StringOr(o, "published_at", "").value, StringOr(o, "fetched_at", "").value,
         if "metrics" in o then o["metrics"] else before.metrics,
         IntOr(o, "llm_relevance_score", toInt).value, StringOr(o, "llm_relevance_reason", "").value,
         StringOr(o, "llm_summary", "").value, ListOr(o, "llm_tags", before.tags).value,
         ListOr(o, "llm_key_points", before.keyPoints).value)
  }

  method ReadString(o: map<string, Json>, key: string, fallback: string) returns (ok: bool, s: string)
    ensures ok == StringOr(o, key, fallback).Some? == StringOr(o, key, "").Some? && (ok ==> s == StringOr(o, key, fallback).value)
  {
    if key !in o {
      return true, fallback;
    }
    if !o[key].Str? {
      return false, "";
    }
    return true, o[key].text;
  }

  method ReadList(o: map<string, Json>, key: string, kept: seq<string>) returns (ok: bool, ss: seq<string>)
    ensures ok == ListOr(o, key, kept).Some? == ListOr(o, key, []).Some? && (ok ==> ss == ListOr(o, key, kept).value)
  {
    if key !in o {
      return true, kept;
    }
    if !o[key].Arr? {
      return false, [];
    }
    var es := o[key].elements;
    ss := [];
    for i := 0 to |es|
      invariant AllStrings(es[..i]) && ss == Texts(es[..i])
    {
      if !es[i].Str? {
        return false, [];
      }
      ss := ss + [es[i].text];
      assert forall k :: 0 <= k < i ==> es[..i + 1][k] == es[..i][k];
    }
    assert es[..|es|] == es;
    ok := true;
  }

  /** from_json assigns the fields one by one; a type error leaves it at that field. */
  method FromJson(j: Json, toInt: nat -> Int32, before: Item) returns (ok: bool, item: Item)
    ensures ok <==> WellTyped(j, toInt)
    ensures ok ==> item == Decoded(j, toInt, before)
  {
    hide StringOr, ListOr, IntOr;
    item := before;
    if !j.Obj? {
      return false, item;
    }
    var o := j.members;
    var s: string;
    var ss: seq<string>;
    ok, s := ReadString(o, "platform", "");
    if !ok { return; }
    item := item.(platform := s);
    ok, s := ReadString(o, "item_id", "");
    if !ok { return; }
    item := item.(itemId := s);
    ok, s := ReadString(o, "item_type", "post");
    if !ok { return; }
    item := item.(itemType := s);
    ok, s := ReadString(o, "author_id", "");
    if !ok { return; }
    item := item.(authorId := s);
    ok, s := ReadString(o, "author_name", "");
    if !ok { return; }
    item := item.(authorName := s);
    ok, s := ReadString(o, "content_text", "");
    if !ok { return; }
    item := item.(contentText := s);
    ok, ss := ReadList(o, "content_media", item.contentMedia);
    if !ok { return; }
    item := item.(contentMedia := ss);
    ok, s := ReadString(o, "url", "");
    if !ok { return; }
    item := item.(url := s);
    ok, s := ReadString(o, "published_at", "");
    if !ok { return; }
    item := item.(publishedAt := s);
    ok, s := ReadString(o, "fetched_at", "");
    if !ok { return; }
    item := item.(fetchedAt := s);
    if "metrics" in o {
      item := item.(metrics := o["metrics"]);
    }
    var n := IntOr(o, "llm_relevance_score", toInt);
    if n.None? { return false, item; }
    item := item.(score := n.value);
    ok, s := ReadString(o, "llm_relevance_reason", "");
    if !ok { return; }
    item := item.(reason := s);
    ok, s := ReadString(o, "llm_summary", "");
    if !ok { return; }
    item := item.(summary := s);
    ok, ss := ReadList(o, "llm_tags", item.tags);
    if !ok { return; }
    item := item.(tags := ss);
    ok, ss := ReadList(o, "llm_key_points", item.keyPoints);
    if !ok { return; }
    item := item.(keyPoints := ss);
  }

  // ---- round trip ----

  lemma WroteFirst(item: Item)
    ensures var o := ToJson(item).members;
            && StringOr(o, "platform", "") == Some(item.platform) && StringOr(o, "item_id", "") == Some(item.itemId)
            && StringOr(o, "item_type", "post") == Some(item.itemType) && StringOr(o, "author_id", "") == Some(item.authorId)
            && StringOr(o, "author_name", "") == Some(item.authorName)
  {
  }

  lemma WroteSecond(item: Item)
    ensures var o := ToJson(item).members;
            && StringOr(o, "content_text", "") == Some(item.contentText) && StringOr(o, "url", "") == Some(item.url)
            && StringOr(o, "published_at", "") == Some(item.publishedAt) && StringOr(o, "fetched_at", "") == Some(item.fetchedAt)
            && "metrics" in o && o["metrics"] == item.metrics
  {
  }

  lemma WroteThird(item: Item, toInt: nat -> Int32)
    ensures var o := ToJson(item).members;
            && IntOr(o, "llm_relevance_score", toInt) == Some(item.score)
            && StringOr(o, "llm_relevance_reason", "") == Some(item.reason) && StringOr(o, "llm_summary", "") == Some(item.summary)
  {
  }

  lemma TextsOfStrings(ss: seq<string>)
    ensures AllStrings(Strings(ss)) && Texts(Strings(ss)) == ss
  {
  }

  lemma WroteLists(item: Item, a: seq<string>, b: seq<string>, c: seq<string>)
    ensures var o := ToJson(item).members;
            && ListOr(o, "content_media", a) == Some(item.contentMedia) && ListOr(o, "llm_tags", b) == Some(item.tags)
            && ListOr(o, "llm_key_points", c) == Some(item.keyPoints)
  {
    TextsOfStrings(item.contentMedia);
    TextsOfStrings(item.tags);
    TextsOfStrings(item.keyPoints);
    hide AllStrings, Texts, Strings;
  }

  /** Reading back what was written gives the record, whatever the record read into held before. */
  lemma RecordRoundTrip(item: Item, toInt: nat -> Int32, before: Item)
    ensures WellTyped(ToJson(item), toInt) && Decoded(ToJson(item), toInt, before) == item
  {
    WroteFirst(item);
    WroteSecond(item);
    WroteThird(item, toInt);
    WroteLists(item, before.contentMedia, before.tags, before.keyPoints);
    WroteLists(item, [], [], []);
    StringOrAny(ToJson(item).members);
    hide StringOr, ListOr, IntOr, ToJson;
  }

  lemma StringOrAny(o: map<string, Json>)
    ensures forall key, fallback :: StringOr(o, key, fallback).Some? <==> StringOr(o, key, "").Some?
  {
  }

  /** A member that is absent resets a text or the score to its default, but leaves a list or the
      metrics as the record read into has them; a member that is present is read whatever that was. */
  lemma AbsentMembers(j: Json, toInt: nat -> Int32, before: Item)
    requires WellTyped(j, toInt)
    ensures var o, item := j.members, Decoded(j, toInt, before);
            && (forall key :: key in TEXTS && key !in o ==> TextMember(item, key) == if key == "item_type" then "post" else "")
            && ("llm_relevance_score" !in o ==> item.score == 0)
            && item.contentMedia == (if "content_media" in o then Decoded(j, toInt, Fresh()).contentMedia else before.contentMedia)
            && item.tags == (if "llm_tags" in o then Decoded(j, toInt, Fresh()).tags else before.tags)
            && item.keyPoints == (if "llm_key_points" in o then Decoded(j, toInt, Fresh()).keyPoints else before.keyPoints)
            && item.metrics == (if "metrics" in o then o["metrics"] else before.metrics)
  {
    hide TextMember;
    forall key | key in TEXTS && key !in j.members
      ensures TextMember(Decoded(j, toInt, before), key) == if key == "item_type" then "post" else ""
    {
      AbsentText(j, toInt, before, key);
    }
  }

  const TEXTS := ["platform", "item_id", "item_type", "author_id", "author_name", "content_text", "url",
                  "published_at", "fetched_at", "llm_relevance_reason", "llm_summary"]

  /** The text stored under a key. */
  function TextMember(item: Item, key: string): string {
    match key
    case "platform" => item.platform
    case "item_id" => item.itemId
    case "item_type" => item.itemType
    case "author_id" => item.authorId
    case "author_name" => item.authorName
    case "content_text" => item.contentText
    case "url" => item.url
    case "published_at" => item.publishedAt
    case "fetched_at" => item.fetchedAt
    case "llm_relevance_reason" => item.reason
    case _ => item.summary
  }

  lemma AbsentText(j: Json, toInt: nat -> Int32, before: Item, key: string)
    requires WellTyped(j, toInt) && key in TEXTS && key !in j.members
    ensures TextMember(Decoded(j, toInt, before), key) == if key == "item_type" then "post" else ""
  {
  }

  /** A member that is present is stored as it stands: a text, each text of a list in order, or a score,
      which is converted to 32 bits, a boolean as 1 or 0. */
  lemma PresentMembers(j: Json, toInt: nat -> Int32, before: Item)
    requires WellTyped(j, toInt)
    ensures var o, item := j.members, Decoded(j, toInt, before);
            && (forall key :: key in TEXTS && key in o ==> o[key] == Str(TextMember(item, key)))
            && ("content_media" in o ==> o["content_media"] == Arr(Strings(item.contentMedia)))
            && ("llm_tags" in o ==> o["llm_tags"] == Arr(Strings(item.tags)))
            && ("llm_key_points" in o ==> o["llm_key_points"] == Arr(Strings(item.keyPoints)))
            && ("llm_relevance_score" in o ==> ScoreRead(o["llm_relevance_score"], toInt, item.score))
  {
    hide TextMember;
    forall key | key in TEXTS && key in j.members
      ensures j.members[key] == Str(TextMember(Decoded(j, toInt, before), key))
    {
      PresentText(j, toInt, before, key);
    }
    PresentLists(j, toInt, before);
    if "llm_relevance_score" in j.members { PresentScore(j, toInt, before); }
    hide WellTyped, Decoded;
  }

  /** What a score of each JSON type becomes. */
  predicate ScoreRead(j: Json, toInt: nat -> Int32, score: int) {
    match j
    case Int(n) => -2147483648 <= score <= 2147483647 && (score - n) % 4294967296 == 0
    case Bool(b) => score == if b then 1 else 0
    case Float(bits) => score == toInt(bits)
    case _ => false
  }

  lemma PresentText(j: Json, toInt: nat -> Int32, before: Item, key: string)
    requires WellTyped(j, toInt) && key in TEXTS && key in j.members
    ensures j.members[key] == Str(TextMember(Decoded(j, toInt, before), key))
  {
  }

  lemma StringsOfTexts(es: seq<Json>)
    requires AllStrings(es)
    ensures Strings(Texts(es)) == es
  {
  }

  lemma PresentList(o: map<string, Json>, key: string, kept: seq<string>)
    requires ListOr(o, key, kept).Some? && key in o
    ensures o[key] == Arr(Strings(ListOr(o, key, kept).value))
  {
    StringsOfTexts(o[key].elements);
  }

  lemma PresentLists(j: Json, toInt: nat -> Int32, before: Item)
    requires WellTyped(j, toInt)
    ensures var o, item := j.members, Decoded(j, toInt, before);
            && ("content_media" in o ==> o["content_media"] == Arr(Strings(item.contentMedia)))
            && ("llm_tags" in o ==> o["llm_tags"] == Arr(Strings(item.tags)))
            && ("llm_key_points" in o ==> o["llm_key_points"] == Arr(Strings(item.keyPoints)))
  {
    ListOrAny(j.members);
    hide StringOr, IntOr, ListOr, Strings;
    var o := j.members;
    if "content_media" in o { PresentList(o, "content_media", before.contentMedia); }
    if "llm_tags" in o { PresentList(o, "llm_tags", before.tags); }
    if "llm_key_points" in o { PresentList(o, "llm_key_points", before.keyPoints); }
  }

  lemma ListOrAny(o: map<string, Json>)
    ensures forall key, kept :: ListOr(o, key, kept).Some? <==> ListOr(o, key, []).Some?
  {
  }

  lemma PresentScore(j: Json, toInt: nat -> Int32, before: Item)
    requires WellTyped(j, toInt) && "llm_relevance_score" in j.members
    ensures ScoreRead(j.members["llm_relevance_score"], toInt, Decoded(j, toInt, before).score)
  {
    var v := j.members["llm_relevance_score"];
    if v.Int? {
      Wrapped(v.number);
      hide Wrap32;
    }
    hide StringOr, ListOr;
  }

  /** What from_json accepts: an object whose members, where present, are texts, lists of texts, and a
      number or boolean for the score; the metrics may be anything. */
  lemma WellTypedIff(j: Json, toInt: nat -> Int32)
    ensures WellTyped(j, toInt) <==>
            && j.Obj?
            && (forall key :: key in TEXTS && key in j.members ==> j.members[key].Str?)
            && (forall key :: key in LISTS && key in j.members ==> j.members[key].Arr? && AllStrings(j.members[key].elements))
            && ("llm_relevance_score" in j.members ==>
                j.members["llm_relevance_score"].Int? || j.members["llm_relevance_score"].Bool? || j.members["llm_relevance_score"].Float?)
  {
    if j.Obj? {
      var o := j.members;
      TextsRead(o);
      ListsRead(o);
      hide StringOr, ListOr, AllStrings;
    }
  }

  const LISTS := ["content_media", "llm_tags", "llm_key_points"]

  lemma TextsRead(o: map<string, Json>)
    ensures (forall key :: key in TEXTS && key in o ==> o[key].Str?) <==>
            && StringOr(o, "platform", "").Some? && StringOr(o, "item_id", "").Some? && StringOr(o, "item_type", "").Some?
            && StringOr(o, "author_id", "").Some? && StringOr(o, "author_name", "").Some? && StringOr(o, "content_text", "").Some?
            && StringOr(o, "url", "").Some? && StringOr(o, "published_at", "").Some? && StringOr(o, "fetched_at", "").Some?
            && StringOr(o, "llm_relevance_reason", "").Some? && StringOr(o, "llm_summary", "").Some?
  {
    forall key ensures StringOr(o, key, "").Some? <==> (key in o ==> o[key].Str?) {}
    assert TEXTS[0] == "platform" && TEXTS[1] == "item_id" && TEXTS[2] == "item_type" && TEXTS[3] == "author_id"
        && TEXTS[4] == "author_name" && TEXTS[5] == "content_text" && TEXTS[6] == "url" && TEXTS[7] == "published_at"
        && TEXTS[8] == "fetched_at" && TEXTS[9] == "llm_relevance_reason" && TEXTS[10] == "llm_summary";
    hide StringOr;
  }

  lemma ListsRead(o: map<string, Json>)
    ensures (forall key :: key in LISTS && key in o ==> o[key].Arr? && AllStrings(o[key].elements)) <==>
            ListOr(o, "content_media", []).Some? && ListOr(o, "llm_tags", []).Some? && ListOr(o, "llm_key_points", []).Some?
  {
    forall key ensures ListOr(o, key, []).Some? <==> (key in o ==> o[key].Arr? && AllStrings(o[key].elements)) {}
    assert LISTS[0] == "content_media" && LISTS[1] == "llm_tags" && LISTS[2] == "llm_key_points";
    hide ListOr, AllStrings;
  }
}
