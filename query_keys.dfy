/** The React Query cache keys: a namespace root, a kind, and for
    parameterised lists the params with empty fields removed, so that
    requests differing only in empty fields share one cache entry. */
module QueryKeys {
  import opened Js

  /** `value === undefined || value === null || value === ''` */
  predicate IsEmptyField(v: Value) {
    v.Undefined? || v.Null? || v == Str("")
  }

  /** `removeEmptyFields`: exactly the empty entries are dropped; all
      others, 0 and false included, keep their values. */
  function RemoveEmptyFields(params: map<string, Value>): (r: map<string, Value>)
    ensures forall k :: k in r <==> k in params && !IsEmptyField(params[k])
    ensures forall k :: k in r ==> r[k] == params[k]
  {
    map k | k in params && !IsEmptyField(params[k]) :: params[k]
  }

  /** Cleaning twice is cleaning once. */
  lemma RemoveEmptyFieldsIdempotent(params: map<string, Value>)
    ensures RemoveEmptyFields(RemoveEmptyFields(params)) == RemoveEmptyFields(params)
  {
    var once := RemoveEmptyFields(params);
    assert RemoveEmptyFields(once).Keys == once.Keys;
  }

  /** Two param objects share a cleaned form exactly when they agree on
      every non-empty entry. */
  lemma RemoveEmptyFieldsSameKey(p: map<string, Value>, q: map<string, Value>)
    ensures RemoveEmptyFields(p) == RemoveEmptyFields(q) <==> forall k :: AgreeOn(p, q, k)
  {
    var cp := RemoveEmptyFields(p);
    var cq := RemoveEmptyFields(q);
    if forall k :: AgreeOn(p, q, k) {
      forall k ensures k in cp <==> k in cq {
        assert AgreeOn(p, q, k);
      }
      assert cp.Keys == cq.Keys;
      forall k | k in cp ensures cp[k] == cq[k] {
        assert AgreeOn(p, q, k);
      }
    }
    if cp == cq {
      forall k ensures AgreeOn(p, q, k) {
        assert k in cp <==> k in cq;
        if k in cp {
          assert cp[k] == cq[k];
        }
      }
    }
  }

  /** `p` and `q` both lack a non-empty `k`, or both hold it with one value. */
  predicate AgreeOn(p: map<string, Value>, q: map<string, Value>, k: string) {
    && ((k in p && !IsEmptyField(p[k])) <==> (k in q && !IsEmptyField(q[k])))
    && (k in p && !IsEmptyField(p[k]) ==> p[k] == q[k])
  }

  /** The namespaces, one per root constant. */
  datatype Namespace = LostFound | Feedback | Post | Claim | Public | Announcement | Agent

  function RootName(ns: Namespace): string {
    match ns
    case LostFound => "lostFound"
    case Feedback => "feedback"
    case Post => "post"
    case Claim => "claim"
    case Public => "public"
    case Announcement => "announcement"
    case Agent => "agent"
  }

  /** One element of a key: a string, or a params object. */
  datatype KeyPart = Part(s: string) | Params(params: map<string, Value>)

  type Key = seq<KeyPart>

  /** The root constant of a namespace, e.g. `['lostFound']`. */
  function Root(ns: Namespace): Key {
    [Part(RootName(ns))]
  }

  /** A key with no params: `[...ROOT, kind]`, e.g. `lists()`, `details()`,
      `sessions()`, `config()`, `myLists()`. */
  function KindKey(ns: Namespace, kind: string): (k: Key)
    ensures |k| == 2 && k[..1] == Root(ns)
  {
    Root(ns) + [Part(kind)]
  }

  /** A parameterised list key: `[...ROOT, kind, removeEmptyFields(params)]`
      (`list`, `history`, `myList`). */
  function ParamsKey(ns: Namespace, kind: string, params: map<string, Value>): (k: Key)
    ensures |k| == 3 && k[..2] == KindKey(ns, kind)
    ensures k[2] == Params(RemoveEmptyFields(params))
  {
    KindKey(ns, kind) + [Params(RemoveEmptyFields(params))]
  }

  /** An id key: `[...ROOT, kind, id]` (`detail`, claim `list`). */
  function IdKey(ns: Namespace, kind: string, id: string): (k: Key)
    ensures |k| == 3 && k[..2] == KindKey(ns, kind) && k[2] == Part(id)
  {
    KindKey(ns, kind) + [Part(id)]
  }

  // The builders of `queryKeys`.
  function LostFoundLists(): Key { KindKey(LostFound, "list") }
  function LostFoundList(params: map<string, Value>): Key { ParamsKey(LostFound, "list", params) }
  function LostFoundDetails(): Key { KindKey(LostFound, "detail") }
  function LostFoundDetail(itemId: string): Key { IdKey(LostFound, "detail", itemId) }
  function FeedbackList(params: map<string, Value>): Key { ParamsKey(Feedback, "list", params) }
  function ClaimLists(): Key { KindKey(Claim, "list") }
  function ClaimList(postId: string): Key { IdKey(Claim, "list", postId) }
  function PublicConfig(): Key { KindKey(Public, "config") }
  function AnnouncementLists(): Key { KindKey(Announcement, "list") }
  function AnnouncementList(params: map<string, Value>): Key { ParamsKey(Announcement, "list", params) }
  function AgentSessions(): Key { KindKey(Agent, "sessions") }
  function AgentHistory(params: map<string, Value>): Key { ParamsKey(Agent, "history", params) }
  function PostMyLists(): Key { KindKey(Post, "my-list") }
  function PostMyList(params: map<string, Value>): Key { ParamsKey(Post, "my-list", params) }

  predicate IsPrefix(a: Key, b: Key) {
    |a| <= |b| && b[..|a|] == a
  }

  /** Invalidating `all` or `lists()` reaches every list key beneath it:
      each is a prefix of the next. */
  lemma ListKeysNest(params: map<string, Value>, id: string)
    ensures IsPrefix(Root(LostFound), LostFoundLists()) && IsPrefix(LostFoundLists(), LostFoundList(params))
    ensures IsPrefix(Root(LostFound), LostFoundDetails()) && IsPrefix(LostFoundDetails(), LostFoundDetail(id))
    ensures IsPrefix(Root(Announcement), AnnouncementLists()) && IsPrefix(AnnouncementLists(), AnnouncementList(params))
    ensures IsPrefix(Root(Claim), ClaimLists()) && IsPrefix(ClaimLists(), ClaimList(id))
    ensures IsPrefix(Root(Post), PostMyLists()) && IsPrefix(PostMyLists(), PostMyList(params))
    ensures IsPrefix(Root(Feedback), FeedbackList(params)) && IsPrefix(Root(Agent), AgentHistory(params))
    ensures IsPrefix(Root(Agent), AgentSessions()) && IsPrefix(Root(Public), PublicConfig())
  {
  }

  /** Every key built under a namespace starts with that namespace's root
      and with no other: the roots are distinct. */
  lemma RootsDistinct(a: Namespace, b: Namespace, kind: string)
    ensures IsPrefix(Root(a), KindKey(b, kind)) <==> a == b
  {
    if a != b {
      assert KindKey(b, kind)[0] == Part(RootName(b));
    }
  }

  /** Two list keys are equal exactly when their cleaned
      params are equal. */
  lemma ListKeySharing(ns: Namespace, kind: string, p: map<string, Value>, q: map<string, Value>)
    ensures ParamsKey(ns, kind, p) == ParamsKey(ns, kind, q) <==> RemoveEmptyFields(p) == RemoveEmptyFields(q)
  {
    if ParamsKey(ns, kind, p) == ParamsKey(ns, kind, q) {
      assert ParamsKey(ns, kind, p)[2] == ParamsKey(ns, kind, q)[2];
    }
  }
}
