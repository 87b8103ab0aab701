/** The feedback API module: feedback list items become records whose one
    type merges the free-text "other" type, and a submission with several
    types becomes one request per type. */
module Feedback {
  import opened Js
  import opened Announcement

  /** The preset feedback types; any other type is sent as 其它类型 with the
      text in `type_other`. */
  const PresetTypes: set<string> := {"信息不全", "不实消息", "恶心血腥", "涉黄信息"}

  const OtherType := "其它类型"

  /** `FeedbackListItem`; a missing `description` is None, and a missing
      `type_other` reads as '' (both are falsy, which is all the code asks). */
  datatype FeedbackListItem = FeedbackListItem(
    createdAt: string, description: Option<string>, id: int, postId: int, processed: bool,
    kind: string, typeOther: string)

  /** `FeedbackRecord` */
  datatype FeedbackRecord = FeedbackRecord(
    id: string, types: seq<string>, description: string, createdAt: string, status: string, source: string)

  /** `mapFeedbackItemToRecord` */
  function MapFeedbackItemToRecord(item: FeedbackListItem): (r: FeedbackRecord)
    ensures item.kind == OtherType && item.typeOther != [] ==> r.types == [item.typeOther]
    ensures !(item.kind == OtherType && item.typeOther != []) ==>
      r.types == (if item.kind != [] then [item.kind] else [])
    ensures |r.types| <= 1 && (forall i :: 0 <= i < |r.types| ==> r.types[i] != [])
    ensures r.status == (if item.processed then "已处理" else "待审核")
    ensures item.description.None? ==> r.description == []
    ensures item.description.Some? ==> r.description == item.description.value
    ensures r.id == IntString(item.id) && r.createdAt == item.createdAt && r.source == "反馈页"
  {
    var mergedType := if item.kind == OtherType && item.typeOther != [] then item.typeOther else item.kind;
    FeedbackRecord(
      id := IntString(item.id),
      types := if mergedType != [] then [mergedType] else [],
      description := if item.description.Some? then item.description.value else "",
      createdAt := item.createdAt,
      status := if item.processed then "已处理" else "待审核",
      source := "反馈页")
  }

  /** The type fields of one submit request. */
  datatype TypePayload = TypePayload(kind: string, typeOther: string)

  /** `resolveSubmitTypePayload`: a preset type is sent as itself, anything
      else as 其它类型 with the trimmed text. */
  function ResolveSubmitTypePayload(t: string): (r: TypePayload)
    ensures Trim(t) in PresetTypes ==> r == TypePayload(Trim(t), "")
    ensures Trim(t) !in PresetTypes ==> r == TypePayload(OtherType, Trim(t))
  {
    var normalized := Trim(t);
    if normalized in PresetTypes then TypePayload(normalized, "") else TypePayload(OtherType, normalized)
  }

  /** A submitted non-blank type comes back from the list as the one type of
      its record: the "other" merge undoes the split made on submit. */
  lemma SubmittedTypeRoundTrips(t: string, item: FeedbackListItem)
    requires Trim(t) != []
    requires var p := ResolveSubmitTypePayload(t); item.kind == p.kind && item.typeOther == p.typeOther
    ensures MapFeedbackItemToRecord(item).types == [Trim(t)]
  {
    var normalized := Trim(t);
    if normalized in PresetTypes {
      assert OtherType !in PresetTypes;
      assert item.kind == normalized != OtherType && item.typeOther == [];
    } else {
      assert item.kind == OtherType && item.typeOther == normalized;
    }
  }

  /** `resolvePostId` on a post id that is absent, null, a string or a
      number: 0 when absent or not a finite non-negative number, otherwise
      the number itself. */
  function ResolvePostId(postId: Value): (r: real)
    requires postId.Undefined? || postId.Null? || postId.Str? || postId.Num?
    ensures r >= 0.0
    ensures (postId.Undefined? || postId.Null?) ==> r == 0.0
    ensures postId.Str? || postId.Num? ==>
      var n := ToNumber(postId);
      if n.Finite? && n.r >= 0.0 then r == n.r else r == 0.0
  {
    if postId.Undefined? || postId.Null? then 0.0
    else
      var numericId := ToNumber(postId);
      if !IsFinite(numericId) || numericId.r < 0.0 then 0.0 else numericId.r
  }

  /** `SubmitFeedbackPayload` as received. */
  datatype Submission = Submission(types: seq<string>, postId: Value, description: string)

  /** `SubmitFeedbackRequestPayload` */
  datatype SubmitRequest = SubmitRequest(postId: real, kind: string, typeOther: string, description: string)

  /** `types.map(type => type.trim()).filter(Boolean)` */
  function KeptTypes(types: seq<string>): (r: seq<string>)
    ensures |r| <= |types|
    ensures forall i :: 0 <= i < |r| ==> r[i] != [] && IsTrimmed(r[i])
  {
    NonBlankTexts(seq(|types|, i requires 0 <= i < |types| => Str(types[i])))
  }

  /** Which types are kept, and in what order: the kept types of a
      concatenation are those of its parts, and one type is kept, trimmed,
      exactly when it is not blank. */
  lemma KeptTypesInOrder(a: seq<string>, b: seq<string>, t: string)
    ensures KeptTypes(a + b) == KeptTypes(a) + KeptTypes(b)
    ensures KeptTypes([t]) == if Trim(t) == [] then [] else [Trim(t)]
  {
    var va := seq(|a|, i requires 0 <= i < |a| => Str(a[i]));
    var vb := seq(|b|, i requires 0 <= i < |b| => Str(b[i]));
    var vab := seq(|a + b|, i requires 0 <= i < |a + b| => Str((a + b)[i]));
    assert vab == va + vb;
    NonBlankTextsAppend(va, vb, Str(t));
    assert seq(1, i requires 0 <= i < 1 => Str([t][i])) == [Str(t)];
  }

  /** The requests `submitFeedbackRequest` sends: none when every type is
      blank; otherwise one per kept type, in order, all with the same post
      id and the trimmed description. */
  function SubmitFeedbackRequests(s: Submission): (r: seq<SubmitRequest>)
    requires s.postId.Undefined? || s.postId.Null? || s.postId.Str? || s.postId.Num?
    ensures |r| == |KeptTypes(s.types)|
    ensures forall i :: 0 <= i < |r| ==>
      && r[i].postId == ResolvePostId(s.postId)
      && r[i].description == Trim(s.description)
      && TypePayload(r[i].kind, r[i].typeOther) == ResolveSubmitTypePayload(KeptTypes(s.types)[i])
  {
    var types := KeptTypes(s.types);
    if |types| == 0 then []
    else
      var postId := ResolvePostId(s.postId);
      var description := Trim(s.description);
      Requests(postId, description, types)
  }

  /** One request per type, in order. */
  function Requests(postId: real, description: string, types: seq<string>): (r: seq<SubmitRequest>)
    ensures |r| == |types|
    ensures forall i :: 0 <= i < |r| ==>
      && r[i].postId == postId && r[i].description == description
      && TypePayload(r[i].kind, r[i].typeOther) == ResolveSubmitTypePayload(types[i])
  {
    seq(|types|, i requires 0 <= i < |types| => RequestFor(postId, description, types[i]))
  }

  /** The request sent for one kept type. */
  function RequestFor(postId: real, description: string, t: string): (r: SubmitRequest)
    ensures r.postId == postId && r.description == description
    ensures TypePayload(r.kind, r.typeOther) == ResolveSubmitTypePayload(t)
  {
    var resolved := ResolveSubmitTypePayload(t);
    SubmitRequest(postId, resolved.kind, resolved.typeOther, description)
  }

  /** No type is kept exactly when every type is blank. */
  lemma KeptTypesEmptyIffBlank(types: seq<string>)
    ensures KeptTypes(types) == [] <==> forall i :: 0 <= i < |types| ==> Trim(types[i]) == []
  {
    var vals := seq(|types|, i requires 0 <= i < |types| => Str(types[i]));
    if KeptTypes(types) == [] {
      forall i | 0 <= i < |types| ensures Trim(types[i]) == [] {
        if Trim(types[i]) != [] {
          assert ToText(vals[i]) == Trim(types[i]);
          NonBlankTextsKeeps(vals, i);
        }
      }
    } else {
      var j := NonBlankTextsOrigin(vals, 0);
      assert ToText(vals[j]) == Trim(types[j]);
    }
  }

  /** Nothing is sent exactly when every type is blank. */
  lemma NothingSentOnlyForBlankTypes(s: Submission)
    requires s.postId.Undefined? || s.postId.Null? || s.postId.Str? || s.postId.Num?
    ensures SubmitFeedbackRequests(s) == [] <==> forall i :: 0 <= i < |s.types| ==> Trim(s.types[i]) == []
  {
    KeptTypesEmptyIffBlank(s.types);
  }

  /** A kept type is sent with its preset or as free text, so its record
      shows it back. */
  lemma SentTypesRoundTrip(s: Submission, i: nat, item: FeedbackListItem)
    requires s.postId.Undefined? || s.postId.Null? || s.postId.Str? || s.postId.Num?
    requires i < |SubmitFeedbackRequests(s)|
    requires item.kind == SubmitFeedbackRequests(s)[i].kind
    requires item.typeOther == SubmitFeedbackRequests(s)[i].typeOther
    ensures MapFeedbackItemToRecord(item).types == [KeptTypes(s.types)[i]]
  {
    var t := KeptTypes(s.types)[i];
    assert Trim(t) == t;
    SubmittedTypeRoundTrips(t, item);
  }

  /** The params of `getFeedbackRecords`: the clamp of the announcement
      list, so a missing page is 1 and a missing page size 10, the page is
      at least 1 and the page size from 1 to 50. */
  function FeedbackListQuery(params: map<string, Value>): (q: map<string, Value>)
    ensures q.Keys == params.Keys + {"page", "page_size"}
    ensures q["page"] == Num(ClampPage(Field(Obj(params), "page")))
    ensures q["page_size"] == Num(ClampPageSize(Field(Obj(params), "page_size")))
    ensures "page" !in params ==> q["page"] == Num(Finite(1.0))
    ensures "page_size" !in params ==> q["page_size"] == Num(Finite(10.0))
    ensures forall k :: k in params && k != "page" && k != "page_size" ==> q[k] == params[k]
    ensures var page := Field(Obj(params), "page");
      (page.Undefined? || page.Num?) ==>
        q["page"].Num? && (q["page"].n.PosInf? || (q["page"].n.Finite? && q["page"].n.r >= 1.0))
    ensures var size := Field(Obj(params), "page_size");
      (size.Undefined? || size.Num?) ==>
        q["page_size"].Num? && q["page_size"].n.Finite? && 1.0 <= q["page_size"].n.r <= 50.0
  {
    ClampDefaults();
    PagedQuery(params)
  }

  /** `getFeedbackRecords`' result mapping: one record per item, in order. */
  function RecordsFrom(list: seq<FeedbackListItem>): (r: seq<FeedbackRecord>)
    ensures |r| == |list|
    ensures forall i :: 0 <= i < |r| ==> r[i] == MapFeedbackItemToRecord(list[i])
    ensures forall i :: 0 <= i < |r| ==> |r[i].types| <= 1 && r[i].id == IntString(list[i].id)
  {
    seq(|list|, i requires 0 <= i < |list| => MapFeedbackItemToRecord(list[i]))
  }
}
