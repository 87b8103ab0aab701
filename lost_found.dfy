/** The lost-and-found API module: small text and number normalisers, the
    status resolver that reconciles the two generations of backend status
    vocabulary (symbolic codes, legacy numeric codes 0-5 and Chinese labels),
    the record mappers, and the normalisation of outgoing payloads. */
module LostFound {
  import opened Js
  import opened Statuses

  // ---------------------------------------------------------------------
  // Normalisers
  // ---------------------------------------------------------------------

  /** The string cut from the trimmed text of `v` by `slice(0, max)`. */
  predicate IsCut(out: string, v: Value, max: nat) {
    |out| == MinNat(max, |ToText(v)|) && out == ToText(v)[..|out|]
  }

  /** `toLimitedText`: absent for blank input, else the trimmed text cut to
      `maxLength` characters. */
  function ToLimitedText(v: Value, maxLength: nat): (r: Option<string>)
    ensures r.None? <==> ToText(v) == []
    ensures r.Some? ==> IsCut(r.value, v, maxLength)
    ensures r.Some? && maxLength > 0 ==> r.value != [] && !IsSpace(r.value[0])
  {
    var normalized := ToText(v);
    if normalized == [] then None else Some(Take(normalized, maxLength))
  }

  /** `toLimitedRequiredText`: the trimmed text cut to `maxLength`
      characters, '' for blank or non-string input. */
  function ToLimitedRequiredText(v: Value, maxLength: nat): (r: string)
    ensures IsCut(r, v, maxLength)
    ensures |r| <= maxLength
    ensures r == [] || !IsSpace(r[0])
  {
    Take(ToText(v), maxLength)
  }

  /** `toPositiveInteger`: a finite value of at least 1 is taken truncated;
      anything else (below 1, NaN, infinite) gives the fallback. */
  function ToPositiveInteger(v: Value, fallback: int): (r: int)
    ensures var n := ToNumber(v);
      if n.Finite? && n.r >= 1.0 then 1 <= r && r as real <= n.r < r as real + 1.0
      else r == fallback
  {
    var numericValue := ToNumber(v);
    if !IsFinite(numericValue) then fallback
    else
      var parsed := TruncReal(numericValue.r);
      if parsed >= 1 then parsed else fallback
  }

  const MaxPageSize := 50

  /** `toPageSize`: as `toPositiveInteger`, capped at 50; an invalid value
      (not finite, or below 1) gives the fallback, itself capped at 50. */
  function ToPageSize(v: Value, fallback: int): (r: int)
    ensures r <= MaxPageSize
    ensures 1 <= fallback ==> 1 <= r
    ensures var n := ToNumber(v);
      n.Finite? && 1.0 <= n.r < 51.0 ==> r as real <= n.r < r as real + 1.0
    ensures var n := ToNumber(v); n.Finite? && n.r >= 50.0 ==> r == MaxPageSize
    ensures var n := ToNumber(v);
      !(n.Finite? && n.r >= 1.0) ==> r == (if fallback > MaxPageSize then MaxPageSize else fallback)
  {
    var parsed := ToPositiveInteger(v, fallback);
    if parsed > MaxPageSize then MaxPageSize else parsed
  }

  // ---------------------------------------------------------------------
  // Status resolver
  // ---------------------------------------------------------------------

  /** `resolvePostType` */
  function ResolvePostType(v: Value): PostType {
    PostTypeOfText(ToText(v))
  }

  /** The if-chain of `resolvePostType` on the trimmed text. */
  function PostTypeOfText(normalized: string): PostType {
    var upper := Upper(normalized);
    if normalized == "2" || upper == "FOUND" || normalized == "招领" then Found else Lost
  }

  /** The values, compared after trimming and ASCII upper-casing, that mean
      a found-item post. */
  const FoundAliases: set<string> := {"2", "FOUND", "招领"}

  lemma PostTypeOfTextByAliases(t: string)
    ensures PostTypeOfText(t) == Found <==> Upper(t) in FoundAliases
  {
    UpperOnlyOf(t, "2");
    UpperOnlyOf(t, "招领");
  }

  /** Reference reading of `resolvePostType`: a post is a found-item post
      exactly when its upper-cased trimmed type is one of the aliases. */
  lemma ResolvePostTypeByAliases(v: Value)
    ensures ResolvePostType(v) == Found <==> Upper(ToText(v)) in FoundAliases
  {
    PostTypeOfTextByAliases(ToText(v));
  }

  /** Resolving an already resolved label gives the same post type. */
  lemma ResolvePostTypeOfLabel(t: PostType)
    ensures ResolvePostType(Str(PostTypeLabel(t))) == t
  {
    assert IsTrimmed(PostTypeLabel(t));
  }

  /** `resolveLostFoundItemStatus` */
  function ResolveLostFoundItemStatus(v: Value, publishType: Value): ItemStatus {
    // `toText(publishTypeValue || '')` is `toText(publishTypeValue)`: both
    // read a falsy or non-string value as ''.
    ItemStatusOfText(ToText(v), ResolvePostType(Str(ToText(publishType))))
  }

  /** The if-chain of `resolveLostFoundItemStatus` on the trimmed status. */
  function ItemStatusOfText(normalized: string, postType: PostType): ItemStatus {
    var upper := Upper(normalized);
    if || normalized == "已认领" || normalized == "已归还" || normalized == "已解决"
       || upper == "CLAIMED" || upper == "SOLVED" || upper == "ARCHIVED"
    then Returned
    else if upper == "CANCELLED" || upper == "CANCELED" || upper == "REJECTED" then
      // A cancelled or rejected post counts as returned, like a claimed one.
      Returned
    else if postType == Found then AwaitingClaim
    else Searching
  }

  /** The status values, compared after trimming and ASCII upper-casing,
      that make an item returned. */
  const ReturnedAliases: set<string> :=
    {"已认领", "已归还", "已解决", "CLAIMED", "SOLVED", "ARCHIVED", "CANCELLED", "CANCELED", "REJECTED"}

  lemma ItemStatusOfTextByAliases(t: string, postType: PostType)
    ensures ItemStatusOfText(t, postType) ==
      if Upper(t) in ReturnedAliases then Returned
      else if postType == Found then AwaitingClaim
      else Searching
  {
    UpperOnlyOf(t, "已认领");
    UpperOnlyOf(t, "已归还");
    UpperOnlyOf(t, "已解决");
  }

  /** Reference reading of `resolveLostFoundItemStatus`: returned exactly
      for the aliases, whatever the post type; otherwise awaiting claim for
      a found-item post and searching for a lost-item post. */
  lemma ResolveLostFoundItemStatusByAliases(v: Value, publishType: Value)
    ensures ResolveLostFoundItemStatus(v, publishType) ==
      if Upper(ToText(v)) in ReturnedAliases then Returned
      else if ResolvePostType(publishType) == Found then AwaitingClaim
      else Searching
  {
    var p := ToText(publishType);
    assert ToText(Str(p)) == p;
    ItemStatusOfTextByAliases(ToText(v), ResolvePostType(publishType));
  }

  /** Cancelled and rejected posts are reported as returned items, the same
      terminal status as claimed ones, whatever the post type. */
  lemma CancelledAndRejectedCountAsReturned(postType: PostType)
    ensures ItemStatusOfText("CANCELLED", postType) == Returned
    ensures ItemStatusOfText("canceled", postType) == Returned
    ensures ItemStatusOfText("Rejected", postType) == Returned
  {
    assert Upper("canceled") == "CANCELED";
    assert Upper("Rejected") == "REJECTED";
  }

  /** The item status always agrees with the post type it is resolved with. */
  lemma ItemStatusAgreesWithPostType(v: Value, publishType: Value)
    ensures AgreesWithPostType(ResolveLostFoundItemStatus(v, publishType), ResolvePostType(publishType))
  {
    ResolveLostFoundItemStatusByAliases(v, publishType);
  }

  /** The seven labels of `statusText` that override the status code. */
  const ReviewLabels: set<string> := {"待审核", "已通过", "已匹配", "已认领", "已解决", "已驳回", "已取消"}

  /** `resolveReviewStatus` */
  function ResolveReviewStatus(v: Value, statusText: Value): ReviewStatus {
    ReviewStatusOfTexts(ToText(v), ToText(statusText))
  }

  /** The if-chains of `resolveReviewStatus` on the trimmed code and label. */
  function ReviewStatusOfTexts(code: string, normalizedText: string): ReviewStatus {
    if normalizedText in ReviewLabels then
      if normalizedText == "已解决" then Claimed
      else if normalizedText == "待审核" then Pending
      else if normalizedText == "已通过" then Approved
      else if normalizedText == "已匹配" then Matched
      else if normalizedText == "已认领" then Claimed
      else if normalizedText == "已驳回" then Rejected
      else Cancelled
    else if normalizedText == "已归档" then Claimed
    else
      StatusOfCode(Upper(code))
  }

  /** The code branch of `resolveReviewStatus`, on the upper-cased code. */
  function StatusOfCode(normalized: string): ReviewStatus {
    if normalized == "0" || normalized == "PENDING" then Pending
    else if normalized == "1" || normalized == "APPROVED" then Approved
    else if normalized == "2" || normalized == "MATCHED" then Matched
    else if || normalized == "3" || normalized == "CLAIMED"
            || normalized == "SOLVED" || normalized == "ARCHIVED" then Claimed
    else if normalized == "4" || normalized == "CANCELED" || normalized == "CANCELLED" then Cancelled
    else if normalized == "5" || normalized == "REJECTED" then Rejected
    else Pending
  }

  /** The labels understood in `statusText`, with the review status each
      stands for: the six canonical labels, and 已解决 and 已归档 for
      claimed. */
  const LabelRules: map<string, ReviewStatus> := map[
    "待审核" := Pending, "已通过" := Approved, "已匹配" := Matched, "已认领" := Claimed,
    "已解决" := Claimed, "已驳回" := Rejected, "已取消" := Cancelled, "已归档" := Claimed]

  /** The code table, in the order the codes are tried. */
  const CodeRules: seq<(set<string>, ReviewStatus)> := [
    ({"0", "PENDING"}, Pending),
    ({"1", "APPROVED"}, Approved),
    ({"2", "MATCHED"}, Matched),
    ({"3", "CLAIMED", "SOLVED", "ARCHIVED"}, Claimed),
    ({"4", "CANCELED", "CANCELLED"}, Cancelled),
    ({"5", "REJECTED"}, Rejected)]

  /** The outcome of the first rule whose codes hold `code`; pending when
      none does. */
  function FirstRule(rules: seq<(set<string>, ReviewStatus)>, code: string): ReviewStatus {
    FirstRuleFrom(rules, 0, code)
  }

  /** The same search, starting at rule `i`. */
  function FirstRuleFrom(rules: seq<(set<string>, ReviewStatus)>, i: nat, code: string): ReviewStatus
    decreases |rules| - i
  {
    if i >= |rules| then Pending
    else if code in rules[i].0 then rules[i].1
    else FirstRuleFrom(rules, i + 1, code)
  }

  /** The code table read in order agrees with the if-chain on the code. */
  lemma CodeRulesUnfold(code: string)
    ensures FirstRule(CodeRules, code) == StatusOfCode(code)
  {
    CodeRulesChain(code);
    assert code in {"0", "PENDING"} <==> code == "0" || code == "PENDING";
    assert code in {"1", "APPROVED"} <==> code == "1" || code == "APPROVED";
    assert code in {"2", "MATCHED"} <==> code == "2" || code == "MATCHED";
    assert code in {"3", "CLAIMED", "SOLVED", "ARCHIVED"} <==>
      code == "3" || code == "CLAIMED" || code == "SOLVED" || code == "ARCHIVED";
    assert code in {"4", "CANCELED", "CANCELLED"} <==> code == "4" || code == "CANCELED" || code == "CANCELLED";
    assert code in {"5", "REJECTED"} <==> code == "5" || code == "REJECTED";
  }

  lemma {:induction false} CodeRulesChain(code: string)
    ensures FirstRule(CodeRules, code) ==
      if code in {"0", "PENDING"} then Pending
      else if code in {"1", "APPROVED"} then Approved
      else if code in {"2", "MATCHED"} then Matched
      else if code in {"3", "CLAIMED", "SOLVED", "ARCHIVED"} then Claimed
      else if code in {"4", "CANCELED", "CANCELLED"} then Cancelled
      else if code in {"5", "REJECTED"} then Rejected
      else Pending
  {
    var rs := CodeRules;
    assert rs[0] == ({"0", "PENDING"}, Pending) && rs[1] == ({"1", "APPROVED"}, Approved);
    assert rs[2] == ({"2", "MATCHED"}, Matched) && rs[3] == ({"3", "CLAIMED", "SOLVED", "ARCHIVED"}, Claimed);
    assert rs[4] == ({"4", "CANCELED", "CANCELLED"}, Cancelled) && rs[5] == ({"5", "REJECTED"}, Rejected);
    assert FirstRuleFrom(rs, 0, code) == if code in rs[0].0 then rs[0].1 else FirstRuleFrom(rs, 1, code);
    assert FirstRuleFrom(rs, 1, code) == if code in rs[1].0 then rs[1].1 else FirstRuleFrom(rs, 2, code);
    assert FirstRuleFrom(rs, 2, code) == if code in rs[2].0 then rs[2].1 else FirstRuleFrom(rs, 3, code);
    assert FirstRuleFrom(rs, 3, code) == if code in rs[3].0 then rs[3].1 else FirstRuleFrom(rs, 4, code);
    assert FirstRuleFrom(rs, 4, code) == if code in rs[4].0 then rs[4].1 else FirstRuleFrom(rs, 5, code);
    assert FirstRuleFrom(rs, 5, code) == if code in rs[5].0 then rs[5].1 else FirstRuleFrom(rs, 6, code);
    assert FirstRuleFrom(rs, 6, code) == Pending;
  }

  lemma ReviewStatusOfTextsByRules(code: string, text: string)
    ensures ReviewStatusOfTexts(code, text) ==
      if text in LabelRules then LabelRules[text] else FirstRule(CodeRules, Upper(code))
  {
    if text in LabelRules {
      LabelRuleDecides(code, text);
    } else {
      assert text !in ReviewLabels && text != "已归档";
      CodeRulesUnfold(Upper(code));
    }
  }

  lemma LabelRuleDecides(code: string, text: string)
    requires text in LabelRules
    ensures ReviewStatusOfTexts(code, text) == LabelRules[text]
  {
    assert text in ReviewLabels || text == "已归档";
  }

  /** Reference reading of `resolveReviewStatus` as an ordered list of
      rules: a recognised trimmed `statusText` label decides; otherwise the
      upper-cased trimmed code is looked up in the code table. */
  lemma ResolveReviewStatusByRules(v: Value, statusText: Value)
    ensures ResolveReviewStatus(v, statusText) ==
      var text := ToText(statusText);
      if text in LabelRules then LabelRules[text] else FirstRule(CodeRules, Upper(ToText(v)))
  {
    ReviewStatusOfTextsByRules(ToText(v), ToText(statusText));
  }

  /** A status label in `statusText` overrides whatever code is sent. */
  lemma ReviewLabelOverridesCode(v: Value, s: ReviewStatus)
    ensures ResolveReviewStatus(v, Str(ReviewStatusLabel(s))) == s
  {
    var l := ReviewStatusLabel(s);
    assert IsTrimmed(l);
    assert ToText(Str(l)) == l;
    LabelDecides(ToText(v), s);
  }

  lemma LabelDecides(code: string, s: ReviewStatus)
    ensures ReviewStatusOfTexts(code, ReviewStatusLabel(s)) == s
  {
    match s
    case Pending =>
    case Approved =>
    case Matched =>
    case Claimed =>
    case Rejected =>
    case Cancelled =>
  }

  /** The legacy numeric code of each review status. */
  function LegacyCode(s: ReviewStatus): string {
    match s
    case Pending => "0"
    case Approved => "1"
    case Matched => "2"
    case Claimed => "3"
    case Cancelled => "4"
    case Rejected => "5"
  }

  /** Without a label, each legacy numeric code decodes to its status. */
  lemma {:induction false} LegacyCodeDecodes(s: ReviewStatus)
    ensures ResolveReviewStatus(Str(LegacyCode(s)), Undefined) == s
  {
    var c := LegacyCode(s);
    DigitIsItsOwnCode(c);
    assert ResolveReviewStatus(Str(c), Undefined) == StatusOfCode(c);
    DigitCodes();
  }

  /** The six digit codes. */
  lemma DigitCodes()
    ensures StatusOfCode("0") == Pending && StatusOfCode("1") == Approved && StatusOfCode("2") == Matched
    ensures StatusOfCode("3") == Claimed && StatusOfCode("4") == Cancelled && StatusOfCode("5") == Rejected
  {
  }

  /** A one-digit code is trimmed and upper-cased as itself. */
  lemma DigitIsItsOwnCode(c: string)
    requires |c| == 1 && '0' <= c[0] <= '9'
    ensures ToText(Str(c)) == c && Upper(c) == c
  {
    assert !IsSpace(c[0]);
    assert IsTrimmed(c);
    assert HasNoAsciiLetter(c);
    UpperOnlyOf(c, c);
  }

  /** `resolveMyPostItemStatus`: returned exactly for a claimed post, else by
      post type. */
  function ResolveMyPostItemStatus(postType: PostType, reviewStatus: ReviewStatus): (r: ItemStatus)
    ensures r == Returned <==> reviewStatus == Claimed
    ensures AgreesWithPostType(r, postType)
  {
    if reviewStatus == Claimed then Returned
    else if postType == Found then AwaitingClaim
    else Searching
  }

  // ---------------------------------------------------------------------
  // Records
  // ---------------------------------------------------------------------

  /** `LostFoundListItem`; the fields the code passes through `toText` or
      the resolvers are untyped values. */
  datatype ListItem = ListItem(
    campus: string, eventTime: string, features: string, hasReward: bool, id: int,
    images: seq<string>, itemName: string, itemType: string, itemTypeOther: Value,
    location: string, publishType: Value, rewardDescription: Value, status: Value)

  /** `LostFoundDetailData` */
  datatype DetailData = DetailData(
    campus: string, claimCount: int, contactName: Value, contactPhone: Value,
    createdAt: string, eventTime: string, features: string, hasReward: bool, id: int,
    images: seq<string>, itemName: string, itemType: string, itemTypeOther: Value,
    location: string, processedAt: Value, publishType: Value, rejectReason: Value,
    rewardDescription: Value, status: Value, storageLocation: Value)

  /** `MyPostListItem` */
  datatype MyPostListItem = MyPostListItem(
    createdAt: string, eventTime: string, id: int, itemName: string, itemType: string,
    itemTypeOther: Value, location: string, publishType: Value, rejectReason: Value,
    status: Value, statusText: Value)

  /** `LostFoundItem`, the record the query pages show. */
  datatype LostFoundItem = LostFoundItem(
    id: string, name: string, itemType: string, location: string, occurredAt: string,
    status: ItemStatus, postType: PostType, description: string, features: string,
    storageLocation: string, claimCount: int, contact: string, hasReward: bool,
    rewardRemark: Option<string>, photos: seq<string>)

  /** `PublishRecord`, the record of one's own post. */
  datatype PublishRecord = PublishRecord(
    id: string, postType: PostType, itemType: string, location: string, timeRange: string,
    status: ItemStatus, itemName: string, occurredAt: string, features: string,
    contactName: string, contactPhone: string, hasReward: bool, rewardRemark: Option<string>,
    photos: seq<string>, createdAt: string, reviewStatus: ReviewStatus,
    rejectReason: Option<string>, updatedAt: Option<string>)

  /** `toText(item_type_other) || item_type`: a non-blank custom type wins. */
  function PreferredItemType(other: Value, itemType: string): (r: string)
    ensures ToText(other) != [] ==> r == ToText(other)
    ensures ToText(other) == [] ==> r == itemType
  {
    var custom := ToText(other);
    if custom != [] then custom else itemType
  }

  /** `[a, b].filter(Boolean).join(' ')` */
  function JoinNonEmpty(a: string, b: string): (r: string)
    ensures r == [] <==> a == [] && b == []
    ensures a != [] && b != [] ==> r == a + " " + b
    ensures a == [] || b == [] ==> r == a + b
  {
    if a == [] then b else if b == [] then a else a + " " + b
  }

  /** `mapPostListItemToLostFoundItem` */
  function MapPostListItemToLostFoundItem(item: ListItem): (r: LostFoundItem)
    ensures r.postType == ResolvePostType(item.publishType)
    ensures r.status == Returned <==> Upper(ToText(item.status)) in ReturnedAliases
    ensures AgreesWithPostType(r.status, r.postType)
    ensures r.itemType == PreferredItemType(item.itemTypeOther, item.itemType)
    ensures r.rewardRemark == ToOptionalText(item.rewardDescription)
    ensures r.storageLocation == r.location == item.location
    ensures r.photos == item.images && r.claimCount == 0 && r.contact == []
    ensures r.id == IntString(item.id) && r.name == item.itemName && r.occurredAt == item.eventTime
    ensures r.description == r.features == item.features && r.hasReward == item.hasReward
  {
    ResolveLostFoundItemStatusByAliases(item.status, item.publishType);
    LostFoundItem(
      id := IntString(item.id),
      name := item.itemName,
      itemType := PreferredItemType(item.itemTypeOther, item.itemType),
      location := item.location,
      occurredAt := item.eventTime,
      status := ResolveLostFoundItemStatus(item.status, item.publishType),
      postType := ResolvePostType(item.publishType),
      description := item.features,
      features := item.features,
      storageLocation := item.location,
      claimCount := 0,
      contact := "",
      hasReward := item.hasReward,
      rewardRemark := ToOptionalText(item.rewardDescription),
      photos := item.images)
  }

  /** `mapPostDetailToLostFoundItem` */
  function MapPostDetailToLostFoundItem(item: DetailData): (r: LostFoundItem)
    ensures r.postType == ResolvePostType(item.publishType)
    ensures r.status == Returned <==> Upper(ToText(item.status)) in ReturnedAliases
    ensures AgreesWithPostType(r.status, r.postType)
    ensures r.itemType == PreferredItemType(item.itemTypeOther, item.itemType)
    ensures r.storageLocation == (if ToText(item.storageLocation) != [] then ToText(item.storageLocation) else item.location)
    ensures r.contact == JoinNonEmpty(ToText(item.contactName), ToText(item.contactPhone))
    ensures r.contact == [] <==> ToText(item.contactName) == [] && ToText(item.contactPhone) == []
    ensures r.photos == item.images && r.claimCount == item.claimCount
    ensures r.rewardRemark == ToOptionalText(item.rewardDescription)
    ensures r.id == IntString(item.id) && r.name == item.itemName && r.location == item.location
    ensures r.occurredAt == item.eventTime && r.hasReward == item.hasReward
    ensures r.description == r.features == item.features
  {
    ResolveLostFoundItemStatusByAliases(item.status, item.publishType);
    ItemStatusAgreesWithPostType(item.status, item.publishType);
    var contactName := ToText(item.contactName);
    var contactPhone := ToText(item.contactPhone);
    var storage := ToText(item.storageLocation);
    LostFoundItem(
      id := IntString(item.id),
      name := item.itemName,
      itemType := PreferredItemType(item.itemTypeOther, item.itemType),
      location := item.location,
      occurredAt := item.eventTime,
      status := ResolveLostFoundItemStatus(item.status, item.publishType),
      postType := ResolvePostType(item.publishType),
      description := item.features,
      features := item.features,
      storageLocation := if storage != [] then storage else item.location,
      claimCount := item.claimCount,
      contact := JoinNonEmpty(contactName, contactPhone),
      hasReward := item.hasReward,
      rewardRemark := ToOptionalText(item.rewardDescription),
      photos := item.images)
  }

  const MaxRecordPhotos := 3

  /** `mapPostDetailToPublishRecord`: the review status comes from the code
      alone, and at most three photos are kept. */
  function MapPostDetailToPublishRecord(item: DetailData): (r: PublishRecord)
    ensures r.postType == ResolvePostType(item.publishType)
    ensures r.itemType == PreferredItemType(item.itemTypeOther, item.itemType)
    ensures r.reviewStatus == ResolveReviewStatus(item.status, Undefined)
    ensures r.status == Returned <==> r.reviewStatus == Claimed
    ensures AgreesWithPostType(r.status, r.postType)
    ensures |r.photos| == MinNat(MaxRecordPhotos, |item.images|) && r.photos == item.images[..|r.photos|]
    ensures r.contactName == ToText(item.contactName) && r.contactPhone == ToText(item.contactPhone)
    ensures IsTrimmed(r.contactName) && IsTrimmed(r.contactPhone)
    ensures r.rejectReason == ToOptionalText(item.rejectReason)
    ensures r.updatedAt == ToOptionalText(item.processedAt)
    ensures r.timeRange == "7d" && r.rewardRemark == ToOptionalText(item.rewardDescription)
    ensures r.id == IntString(item.id) && r.itemName == item.itemName && r.location == item.location
    ensures r.occurredAt == item.eventTime && r.features == item.features && r.hasReward == item.hasReward
    ensures r.createdAt == item.createdAt
  {
    var postType := ResolvePostType(item.publishType);
    var reviewStatus := ResolveReviewStatus(item.status, Undefined);
    PublishRecord(
      id := IntString(item.id),
      postType := postType,
      itemType := PreferredItemType(item.itemTypeOther, item.itemType),
      location := item.location,
      timeRange := "7d",
      status := ResolveMyPostItemStatus(postType, reviewStatus),
      itemName := item.itemName,
      occurredAt := item.eventTime,
      features := item.features,
      contactName := ToText(item.contactName),
      contactPhone := ToText(item.contactPhone),
      hasReward := item.hasReward,
      rewardRemark := ToOptionalText(item.rewardDescription),
      photos := Take(item.images, MaxRecordPhotos),
      createdAt := item.createdAt,
      reviewStatus := reviewStatus,
      rejectReason := ToOptionalText(item.rejectReason),
      updatedAt := ToOptionalText(item.processedAt))
  }

  /** `mapMyPostListItemToPublishRecord`: the label in `status_text`, when
      recognised, decides the review status. */
  function MapMyPostListItemToPublishRecord(item: MyPostListItem): (r: PublishRecord)
    ensures r.postType == ResolvePostType(item.publishType)
    ensures r.itemType == PreferredItemType(item.itemTypeOther, item.itemType)
    ensures r.reviewStatus == ResolveReviewStatus(item.status, item.statusText)
    ensures r.status == Returned <==> r.reviewStatus == Claimed
    ensures AgreesWithPostType(r.status, r.postType)
    ensures r.photos == [] && !r.hasReward && r.features == [] && r.updatedAt.None?
    ensures r.contactName == [] && r.contactPhone == [] && r.rewardRemark.None?
    ensures r.rejectReason == ToOptionalText(item.rejectReason)
    ensures r.timeRange == "7d" && r.id == IntString(item.id) && r.itemName == item.itemName
    ensures r.location == item.location && r.occurredAt == item.eventTime && r.createdAt == item.createdAt
  {
    var postType := ResolvePostType(item.publishType);
    var reviewStatus := ResolveReviewStatus(item.status, item.statusText);
    PublishRecord(
      id := IntString(item.id),
      postType := postType,
      itemType := PreferredItemType(item.itemTypeOther, item.itemType),
      location := item.location,
      timeRange := "7d",
      status := ResolveMyPostItemStatus(postType, reviewStatus),
      itemName := item.itemName,
      occurredAt := item.eventTime,
      features := "",
      contactName := "",
      contactPhone := "",
      hasReward := false,
      rewardRemark := None,
      photos := [],
      createdAt := item.createdAt,
      reviewStatus := reviewStatus,
      rejectReason := ToOptionalText(item.rejectReason),
      updatedAt := None)
  }

  // ---------------------------------------------------------------------
  // Outgoing payloads
  // ---------------------------------------------------------------------

  /** The keys `getLostFoundList` sets over the caller's params. */
  const ListQueryKeys: set<string> := {"item_type", "location", "status", "page", "page_size"}

  /** `toLimitedText` as a query value: the cut text, or undefined (dropped
      from the URL) when blank. */
  function CutOrAbsent(v: Value, max: nat): (r: Value)
    ensures r == Undefined <==> ToText(v) == []
    ensures r != Undefined ==> r.Str? && IsCut(r.s, v, max)
  {
    var t := ToLimitedText(v, max);
    if t.Some? then Str(t.value) else Undefined
  }

  /** `getLostFoundList`'s query: the given params with the text filters cut
      (absent when blank), the status kept, and page and page size made
      positive integers (page size at most 50). */
  function LostFoundListQuery(params: map<string, Value>): (q: map<string, Value>)
    ensures q.Keys == params.Keys + ListQueryKeys
    ensures forall k :: k in params && k !in ListQueryKeys ==> q[k] == params[k]
    ensures q["status"] == Field(Obj(params), "status")
    ensures q["item_type"] == CutOrAbsent(Field(Obj(params), "item_type"), 20)
    ensures q["location"] == CutOrAbsent(Field(Obj(params), "location"), 100)
    ensures q["page"] == Num(Finite(ToPositiveInteger(Field(Obj(params), "page"), 1) as real))
    ensures q["page_size"] == Num(Finite(ToPageSize(Field(Obj(params), "page_size"), 10) as real))
    ensures "page" !in params ==> q["page"] == Num(Finite(1.0))
    ensures "page_size" !in params ==> q["page_size"] == Num(Finite(10.0))
    ensures q["page"].Num? && q["page"].n.Finite? && q["page"].n.r >= 1.0
    ensures q["page_size"].Num? && q["page_size"].n.Finite? && 1.0 <= q["page_size"].n.r <= 50.0
  {
    var overrides := ListQueryOverrides(Obj(params));
    var q := params + overrides;
    assert forall k :: k in overrides ==> q[k] == overrides[k];
    q
  }

  /** The value `getLostFoundList` gives each of its keys. */
  function ListQueryValue(p: Value, k: string): Value {
    if k == "item_type" then CutOrAbsent(Field(p, "item_type"), 20)
    else if k == "location" then CutOrAbsent(Field(p, "location"), 100)
    else if k == "status" then Field(p, "status")
    else if k == "page" then Num(Finite(ToPositiveInteger(Field(p, "page"), 1) as real))
    else Num(Finite(ToPageSize(Field(p, "page_size"), 10) as real))
  }

  /** The entries `getLostFoundList` writes over the caller's params. */
  function ListQueryOverrides(p: Value): (m: map<string, Value>)
    ensures m.Keys == ListQueryKeys
    ensures m["status"] == Field(p, "status")
    ensures m["item_type"] == CutOrAbsent(Field(p, "item_type"), 20)
    ensures m["location"] == CutOrAbsent(Field(p, "location"), 100)
    ensures m["page"] == Num(Finite(ToPositiveInteger(Field(p, "page"), 1) as real))
    ensures m["page_size"] == Num(Finite(ToPageSize(Field(p, "page_size"), 10) as real))
    ensures m["page"].Num? && m["page"].n.Finite? && m["page"].n.r >= 1.0
    ensures m["page_size"].Num? && m["page_size"].n.Finite? && 1.0 <= m["page_size"].n.r <= 50.0
  {
    map k | k in ListQueryKeys :: ListQueryValue(p, k)
  }

  /** `getMyPostList`'s query: the given params with page and page size
      made positive integers (page size at most 50). */
  function MyPostListQuery(params: map<string, Value>): (q: map<string, Value>)
    ensures q.Keys == params.Keys + {"page", "page_size"}
    ensures forall k :: k in params && k != "page" && k != "page_size" ==> q[k] == params[k]
    ensures q["page"] == Num(Finite(ToPositiveInteger(Field(Obj(params), "page"), 1) as real))
    ensures q["page_size"] == Num(Finite(ToPageSize(Field(Obj(params), "page_size"), 10) as real))
    ensures "page" !in params ==> q["page"] == Num(Finite(1.0))
    ensures "page_size" !in params ==> q["page_size"] == Num(Finite(10.0))
    ensures q["page"].Num? && q["page"].n.Finite? && q["page"].n.r >= 1.0
    ensures q["page_size"].Num? && q["page_size"].n.Finite? && 1.0 <= q["page_size"].n.r <= 50.0
  {
    var p := Obj(params);
    var page := ToPositiveInteger(Field(p, "page"), 1);
    var pageSize := ToPageSize(Field(p, "page_size"), 10);
    params + map["page" := Num(Finite(page as real)), "page_size" := Num(Finite(pageSize as real))]
  }

  /** `toQueryId` on a post id (a string or a number): a number is
      truncated and written in decimal, a string is trimmed. */
  function ToQueryId(v: Value): (r: string)
    requires v.Str? || v.Num?
    ensures v.Str? ==> r == Trim(v.s)
    ensures v.Num? && v.n.Finite? ==> r == IntString(TruncReal(v.n.r))
  {
    if v.Num? then
      match v.n
      case Finite(x) => IntString(TruncReal(x))
      case NaN => "NaN"
      case PosInf => "Infinity"
      case NegInf => "-Infinity"
    else
      // `String(value || '')`: the empty string is falsy and stays ''.
      Trim(v.s)
  }

  /** An integral id survives `toQueryId` unchanged. */
  lemma QueryIdOfInteger(n: int)
    ensures ToQueryId(Num(Finite(n as real))) == IntString(n)
  {
    assert (n as real).Floor == n;
  }

  /** `PublishPostPayload` as received; every field may hold anything. */
  datatype PublishInput = PublishInput(
    publishType: Value, itemName: Value, itemType: Value, campus: Value, location: Value,
    storageLocation: Value, eventTime: Value, features: Value, contactName: Value,
    contactPhone: Value, hasReward: Value, rewardDescription: Value, images: Option<seq<Value>>)

  /** `PublishPostPayload` as sent. */
  datatype PublishPayload = PublishPayload(
    publishType: Value, itemName: string, itemType: string, campus: Value, location: string,
    storageLocation: string, eventTime: Value, features: string, contactName: string,
    contactPhone: string, hasReward: bool, rewardDescription: string, images: seq<string>)

  const MaxPayloadImages := 3

  /** `(images || []).map(toText).filter(Boolean).slice(0, 3)` */
  function CleanImages(images: Option<seq<Value>>, limit: nat): (r: seq<string>)
    ensures |r| <= limit
    ensures forall i :: 0 <= i < |r| ==> r[i] != [] && IsTrimmed(r[i])
    ensures images.None? ==> r == []
    ensures images.Some? ==> |r| <= |NonBlankTexts(images.value)| && r == NonBlankTexts(images.value)[..|r|]
    ensures images.Some? ==> |r| == MinNat(limit, |NonBlankTexts(images.value)|)
  {
    Take(if images.Some? then NonBlankTexts(images.value) else [], limit)
  }

  /** Payload normalisation of `publishPost`. */
  function NormalizePublishPayload(p: PublishInput): (r: PublishPayload)
    ensures IsCut(r.itemName, p.itemName, 50) && IsCut(r.itemType, p.itemType, 20)
    ensures IsCut(r.location, p.location, 100) && IsCut(r.storageLocation, p.storageLocation, 100)
    ensures IsCut(r.features, p.features, 255)
    ensures IsCut(r.contactName, p.contactName, 30) && IsCut(r.contactPhone, p.contactPhone, 20)
    ensures r.hasReward == Truthy(p.hasReward)
    ensures r.hasReward ==> IsCut(r.rewardDescription, p.rewardDescription, 255)
    ensures !r.hasReward ==> r.rewardDescription == []
    ensures |r.images| <= MaxPayloadImages && r.images == CleanImages(p.images, MaxPayloadImages)
    ensures r.publishType == p.publishType && r.campus == p.campus && r.eventTime == p.eventTime
  {
    PublishPayload(
      publishType := p.publishType,
      itemName := ToLimitedRequiredText(p.itemName, 50),
      itemType := ToLimitedRequiredText(p.itemType, 20),
      campus := p.campus,
      location := ToLimitedRequiredText(p.location, 100),
      storageLocation := ToLimitedRequiredText(p.storageLocation, 100),
      eventTime := p.eventTime,
      features := ToLimitedRequiredText(p.features, 255),
      contactName := ToLimitedRequiredText(p.contactName, 30),
      contactPhone := ToLimitedRequiredText(p.contactPhone, 20),
      hasReward := Truthy(p.hasReward),
      rewardDescription := if Truthy(p.hasReward) then ToLimitedRequiredText(p.rewardDescription, 255) else "",
      images := CleanImages(p.images, MaxPayloadImages))
  }

  /** `UpdateMyPostPayload` as received. */
  datatype UpdateInput = UpdateInput(
    postId: Value, itemName: Value, itemType: Value, itemTypeOther: Value, campus: Value,
    location: Value, storageLocation: Value, eventTime: Value, features: Value,
    contactName: Value, contactPhone: Value, hasReward: Value, rewardDescription: Value,
    images: Option<seq<Value>>)

  /** `UpdateMyPostPayload` as sent. */
  datatype UpdatePayload = UpdatePayload(
    postId: Value, itemName: string, itemType: string, itemTypeOther: string, campus: Value,
    location: string, storageLocation: string, eventTime: Value, features: string,
    contactName: string, contactPhone: string, hasReward: bool, rewardDescription: string,
    images: seq<string>)

  /** Payload normalisation of `updateMyPost`. */
  function NormalizeUpdatePayload(p: UpdateInput): (r: UpdatePayload)
    ensures IsCut(r.itemName, p.itemName, 50) && IsCut(r.itemType, p.itemType, 20)
    ensures IsCut(r.itemTypeOther, p.itemTypeOther, 15)
    ensures IsCut(r.location, p.location, 100) && IsCut(r.storageLocation, p.storageLocation, 100)
    ensures IsCut(r.features, p.features, 200)
    ensures IsCut(r.contactName, p.contactName, 30) && IsCut(r.contactPhone, p.contactPhone, 20)
    ensures r.hasReward == Truthy(p.hasReward)
    ensures r.hasReward ==> IsCut(r.rewardDescription, p.rewardDescription, 255)
    ensures !r.hasReward ==> r.rewardDescription == []
    ensures |r.images| <= MaxPayloadImages && r.images == CleanImages(p.images, MaxPayloadImages)
    ensures r.postId == p.postId && r.campus == p.campus && r.eventTime == p.eventTime
  {
    UpdatePayload(
      postId := p.postId,
      itemName := ToLimitedRequiredText(p.itemName, 50),
      itemType := ToLimitedRequiredText(p.itemType, 20),
      itemTypeOther := ToLimitedRequiredText(p.itemTypeOther, 15),
      campus := p.campus,
      location := ToLimitedRequiredText(p.location, 100),
      storageLocation := ToLimitedRequiredText(p.storageLocation, 100),
      eventTime := p.eventTime,
      features := ToLimitedRequiredText(p.features, 200),
      contactName := ToLimitedRequiredText(p.contactName, 30),
      contactPhone := ToLimitedRequiredText(p.contactPhone, 20),
      hasReward := Truthy(p.hasReward),
      rewardDescription := if Truthy(p.hasReward) then ToLimitedRequiredText(p.rewardDescription, 255) else "",
      images := CleanImages(p.images, MaxPayloadImages))
  }

  /** The claim request body of `submitClaimRequest`. */
  datatype ClaimPayload = ClaimPayload(postId: real, description: string, proofImages: seq<string>)

  /** `submitClaimRequest`'s body: the item id read as a number (0 when not
      finite), the detail cut to 500 characters, and at most 255 non-blank
      trimmed proof images. */
  function NormalizeClaimPayload(itemId: string, detail: Value, photos: seq<Value>): (r: ClaimPayload)
    ensures StringToNumber(itemId).Finite? ==> r.postId == StringToNumber(itemId).r
    ensures !StringToNumber(itemId).Finite? ==> r.postId == 0.0
    ensures IsCut(r.description, detail, 500)
    ensures r.proofImages == CleanImages(Some(photos), 255)
  {
    var postId := ToNumber(Str(itemId));
    assert postId == StringToNumber(itemId);
    ClaimPayload(
      postId := if IsFinite(postId) then postId.r else 0.0,
      description := ToLimitedRequiredText(detail, 500),
      proofImages := Take(NonBlankTexts(photos), 255))
  }
}
