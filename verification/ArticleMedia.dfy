/** Media slots of articles: a capped count, reserved under a lock for each article and
    type, with confirmations, deletions and failures outside it. */
module ArticleMedia {
  import opened Wrappers
  import opened Collections
  import Articles

  datatype MediaType = IMAGE | VIDEO
  datatype MediaStatus = PENDING | CONFIRMED

  datatype Bucket = Bucket(articleId: int, mediaType: MediaType)
  datatype Media = Media(bucket: Bucket, status: MediaStatus, caption: Option<string>, sortOrder: int)

  /** The caption and position that a confirmation may set. */
  datatype Details = Details(caption: Option<string>, sortOrder: Option<int>)

  function Reserved(b: Bucket, caption: Option<string>, used: nat): Media { Media(b, PENDING, caption, used) }

  function Confirmed(m: Media, d: Details): Media {
    Media(m.bucket, CONFIRMED, if d.caption.Some? then d.caption else m.caption,
          if d.sortOrder.Some? then d.sortOrder.value else m.sortOrder)
  }

  function Cap(b: Bucket): nat { if b.mediaType.IMAGE? then 15 else 3 }

  function MaxBytes(t: MediaType): nat { if t.IMAGE? then 15 * 1024 * 1024 else 200 * 1024 * 1024 }

  /** The rows that hold a slot of the bucket: every row is pending or confirmed. */
  function Slots(rows: map<nat, Media>, b: Bucket): set<nat> {
    set id | id in rows && rows[id].bucket == b
  }

  function Used(rows: map<nat, Media>, b: Bucket): nat { |Slots(rows, b)| }

  ghost predicate WithinCaps(rows: map<nat, Media>) {
    forall b :: Used(rows, b) <= Cap(b)
  }

  lemma InsertUses(rows: map<nat, Media>, id: nat, m: Media, b: Bucket)
    requires id !in rows
    ensures Used(rows[id := m], b) == Used(rows, b) + if m.bucket == b then 1 else 0
  {
    assert Slots(rows[id := m], b) == Slots(rows, b) + if m.bucket == b then {id} else {};
  }

  lemma FewerUse(rows: map<nat, Media>, fewer: map<nat, Media>, b: Bucket)
    requires forall id | id in fewer :: id in rows && fewer[id].bucket == rows[id].bucket
    ensures Used(fewer, b) <= Used(rows, b)
  {
    SubsetSize(Slots(fewer, b), Slots(rows, b));
  }

  // ----- the service's methods, each run on its own

  datatype MediaError =
    | NotFound | NotEditable | BadInput | CapReached | NotSigned
    | MediaNotFound | Unverifiable | NotUploaded | TooLarge

  /** What `HeadObject` says about an upload; it need not tell the size. */
  datatype Head = Found(size: Option<nat>) | Absent | Unreachable

  /** May the author manage the media of the article? */
  function Gate(article: Option<Articles.Article>, authorId: int): Option<MediaError> {
    if article.None? || article.value.authorId != authorId then Some(NotFound)
    else if article.value.status in {Articles.DRAFT, Articles.SUBMITTED, Articles.REJECTED} then None
    else Some(NotEditable)
  }

  /** Why an upload is not confirmed, if it is not. Outside production the size that the
      client names stands in for an object that is not there. */
  function UploadError(head: Head, named: Option<nat>, isProd: bool, t: MediaType): Option<MediaError> {
    match head
    case Unreachable => Some(Unverifiable)
    case Absent =>
      if isProd || named.None? then Some(NotUploaded)
      else if named.value > MaxBytes(t) then Some(TooLarge) else None
    case Found(size) => if size.Some? && size.value > MaxBytes(t) then Some(TooLarge) else None
  }

  /** The gate opens exactly to the article's author while the article is not published,
      approved or archived. */
  lemma GateOpensExactly(article: Option<Articles.Article>, authorId: int)
    ensures Gate(article, authorId).None? <==>
            && article != None && article.value.authorId == authorId
            && article.value.status !in {Articles.APPROVED, Articles.PUBLISHED, Articles.ARCHIVED}
    ensures Gate(article, authorId) == Some(NotFound) <==> article == None || article.value.authorId != authorId
    ensures Gate(article, authorId) in {None, Some(NotFound), Some(NotEditable)}
  {
    if article.Some? {
      match article.value.status {
        case DRAFT =>
        case _ =>
      }
    }
  }

  /** An upload is confirmed exactly if it is not known to be too large, and is there or,
      outside production, its size is named. */
  lemma UploadsAreChecked(head: Head, named: Option<nat>, isProd: bool, t: MediaType)
    ensures var limit := if t == IMAGE then 15_728_640 else 209_715_200;
      && (UploadError(head, named, isProd, t).None? <==>
            || (head.Found? && (head.size == None || head.size.value <= limit))
            || (head.Absent? && !isProd && named != None && named.value <= limit))
      && (UploadError(head, named, isProd, t) == Some(TooLarge) <==>
            || (head.Found? && head.size != None && head.size.value > limit)
            || (head.Absent? && !isProd && named != None && named.value > limit))
      && (UploadError(head, named, isProd, t) == Some(NotUploaded) <==> head.Absent? && (isProd || named == None))
      && (UploadError(head, named, isProd, t) == Some(Unverifiable) <==> head.Unreachable?)
  {
  }

  /** A confirmation changes status and the details given, nothing else. */
  lemma ConfirmationIsExact(m: Media, d: Details)
    ensures var c := Confirmed(m, d);
      && c.bucket == m.bucket && c.status == CONFIRMED
      && (d.caption != None ==> c.caption == d.caption) && (d.caption == None ==> c.caption == m.caption)
      && (forall n :: d.sortOrder == Some(n) ==> c.sortOrder == n) && (d.sortOrder == None ==> c.sortOrder == m.sortOrder)
  {
  }

  class ArticleMediaService {
    var rows: map<nat, Media>
    var nextId: nat
    var articles: map<int, Articles.Article>
    const isProd: bool

    ghost predicate Valid() reads this {
      WithinCaps(rows) && forall id | id in rows :: id < nextId
    }

    function Article(id: int): Option<Articles.Article> reads this`articles {
      if id in articles then Some(articles[id]) else None
    }

    constructor (articles: map<int, Articles.Article>, isProd: bool)
      ensures Valid() && rows == map[] && this.articles == articles && this.isProd == isProd
    {
      rows, nextId, this.articles, this.isProd := map[], 0, articles, isProd;
      new;
      forall b ensures Used(rows, b) <= Cap(b) {
        assert Slots(rows, b) == {};
      }
    }

    method AssertOwnEditableArticle(articleId: int, authorId: int) returns (error: Option<MediaError>)
      ensures error == Gate(Article(articleId), authorId)
    {
      if articleId !in articles || articles[articleId].authorId != authorId {
        return Some(NotFound);
      }
      var status := articles[articleId].status;
      if !status.DRAFT? && !status.SUBMITTED? && !status.REJECTED? {
        return Some(NotEditable);
      }
      return None;
    }

    /** Reserve a slot at the end, then sign; a failure to sign gives the slot back. */
    method PresignMedia(b: Bucket, authorId: int, caption: Option<string>, inputOk: bool, signs: bool)
      returns (id: Result<nat, MediaError>)
      requires Valid()
      modifies this`rows, this`nextId
      ensures Valid()
      ensures id.Err? ==> rows == old(rows)
      ensures id.Err? ==> Some(id.error) == (var gate := Gate(Article(b.articleId), authorId);
                                             if gate.Some? then gate
                                             else if !inputOk then Some(BadInput)
                                             else if Used(rows, b) >= Cap(b) then Some(CapReached)
                                             else Some(NotSigned))
      ensures id.Ok? <==> Gate(Article(b.articleId), authorId).None? && inputOk && Used(old(rows), b) < Cap(b) && signs
      ensures id.Ok? ==> id.value !in old(rows)
                         && rows == old(rows)[id.value := Reserved(b, caption, Used(old(rows), b))]
    {
      var gate := AssertOwnEditableArticle(b.articleId, authorId);
      if gate.Some? {
        return Err(gate.value);
      }
      if !inputOk {
        return Err(BadInput);
      }
      var used := Used(rows, b);
      if used >= Cap(b) {
        return Err(CapReached);
      }
      ghost var before := rows;
      var media, row := nextId, Reserved(b, caption, used);
      forall k ensures Used(rows[media := row], k) <= Cap(k) {
        InsertUses(rows, media, row, k);
      }
      rows := rows[media := row];
      nextId := nextId + 1;
      if !signs {
        rows := rows - {media};
        assert rows == before;
        return Err(NotSigned);
      }
      return Ok(media);
    }

    /** A confirmation of a confirmed row only sets its details; an oversize upload loses
        its row. */
    method ConfirmMedia(articleId: int, id: nat, authorId: int, details: Details, head: Head, named: Option<nat>)
      returns (error: Option<MediaError>)
      requires Valid()
      modifies this`rows
      ensures Valid()
      ensures error ==
        var gate := Gate(Article(articleId), authorId);
        if gate.Some? then gate
        else if id !in old(rows) || old(rows)[id].bucket.articleId != articleId then Some(MediaNotFound)
        else if old(rows)[id].status.CONFIRMED? then None
        else UploadError(head, named, isProd, old(rows)[id].bucket.mediaType)
      ensures error.None? ==> id in old(rows) && rows == old(rows)[id := Confirmed(old(rows)[id], details)]
      ensures error.Some? ==> rows == if error.value.TooLarge? then old(rows) - {id} else old(rows)
    {
      error := AssertOwnEditableArticle(articleId, authorId);
      if error.Some? {
        return;
      }
      if id !in rows || rows[id].bucket.articleId != articleId {
        return Some(MediaNotFound);
      }
      var media := rows[id];
      if media.status.CONFIRMED? {
        Rewrite(rows[id := Confirmed(media, details)]);
        return None;
      }
      var actualSize: Option<nat> := None;
      match head {
        case Found(size) => actualSize := size;
        case Absent =>
          if isProd || named.None? {
            return Some(NotUploaded);
          }
          actualSize := named;
        case Unreachable => return Some(Unverifiable);
      }
      if actualSize.Some? && actualSize.value > MaxBytes(media.bucket.mediaType) {
        Rewrite(rows - {id});
        return Some(TooLarge);
      }
      Rewrite(rows[id := Confirmed(media, details)]);
      return None;
    }

    /** Writes that take rows away or leave them in their bucket. */
    method Rewrite(next: map<nat, Media>)
      requires Valid() && forall id | id in next :: id in rows && next[id].bucket == rows[id].bucket
      modifies this`rows
      ensures Valid() && rows == next
    {
      forall b ensures Used(next, b) <= Cap(b) {
        FewerUse(rows, next, b);
      }
      rows := next;
    }

    method DeleteMedia(articleId: int, id: nat, authorId: int) returns (error: Option<MediaError>)
      requires Valid()
      modifies this`rows
      ensures Valid()
      ensures error ==
        var gate := Gate(Article(articleId), authorId);
        if gate.Some? then gate
        else if id !in old(rows) || old(rows)[id].bucket.articleId != articleId then Some(MediaNotFound)
        else None
      ensures rows == if error.None? then old(rows) - {id} else old(rows)
    {
      error := AssertOwnEditableArticle(articleId, authorId);
      if error.Some? {
        return;
      }
      if id !in rows || rows[id].bucket.articleId != articleId {
        return Some(MediaNotFound);
      }
      Rewrite(rows - {id});
      return None;
    }
  }

  // ----- every interleaving

  /** Where a request stands; from `Holding` until the insert it holds the bucket's lock. */
  datatype Pc =
    | Waiting(bucket: Bucket, caption: Option<string>)
    | Holding(bucket: Bucket, caption: Option<string>)
    | Counted(bucket: Bucket, caption: Option<string>, used: nat)
    | Signing(id: nat)
    | Verifying(id: nat, details: Details)
    | Amending(id: nat, details: Details)

  datatype State = State(rows: map<nat, Media>, nextId: nat, locks: map<Bucket, int>, requests: map<int, Pc>)

  datatype Event =
    | Presign(client: int, bucket: Bucket, caption: Option<string>)
    | StartConfirm(client: int, id: nat, details: Details)
    | Advance(client: int)
    | Fail(client: int)
    | GiveUp(client: int)
    | Delete(id: nat)
    | DeleteArticle(articleId: int)

  function Confirm(rows: map<nat, Media>, id: nat, details: Details): map<nat, Media> {
    if id in rows then rows[id := Confirmed(rows[id], details)] else rows
  }

  function Finish(s: State, c: int): State { s.(requests := s.requests - {c}) }

  function Unlock(s: State, b: Bucket): State { s.(locks := s.locks - {b}) }

  function Advanced(s: State, c: int, pc: Pc): State {
    match pc
    case Waiting(b, caption) =>
      if b in s.locks then s else s.(locks := s.locks[b := c], requests := s.requests[c := Holding(b, caption)])
    case Holding(b, caption) =>
      if Used(s.rows, b) >= Cap(b) then Finish(Unlock(s, b), c)
      else s.(requests := s.requests[c := Counted(b, caption, Used(s.rows, b))])
    case Counted(b, caption, used) =>
      Unlock(s, b).(rows := s.rows[s.nextId := Reserved(b, caption, used)], nextId := s.nextId + 1,
                    requests := s.requests[c := Signing(s.nextId)])
    case Signing(_) => Finish(s, c)
    case Verifying(id, details) => Finish(s, c).(rows := Confirm(s.rows, id, details))
    case Amending(id, details) => Finish(s, c).(rows := Confirm(s.rows, id, details))
  }

  /** A rolled-back transaction, a URL that cannot be signed, or an oversize upload. */
  function Failed(s: State, c: int, pc: Pc): State {
    match pc
    case Waiting(_, _) => Finish(s, c)
    case Holding(b, _) => Finish(Unlock(s, b), c)
    case Counted(b, _, _) => Finish(Unlock(s, b), c)
    case Signing(id) => Finish(s, c).(rows := s.rows - {id})
    case Verifying(id, _) => Finish(s, c).(rows := s.rows - {id})
    case Amending(_, _) => Finish(s, c)
  }

  function Step(s: State, e: Event): State {
    match e
    case Presign(c, b, caption) => if c in s.requests then s else s.(requests := s.requests[c := Waiting(b, caption)])
    case StartConfirm(c, id, details) =>
      if c in s.requests || id !in s.rows then s
      else s.(requests := s.requests[c := if s.rows[id].status.CONFIRMED? then Amending(id, details)
                                          else Verifying(id, details)])
    case Advance(c) => if c in s.requests then Advanced(s, c, s.requests[c]) else s
    // the upload is missing or cannot be verified
    case GiveUp(c) => if c in s.requests && s.requests[c].Verifying? then Finish(s, c) else s
    case Fail(c) => if c in s.requests then Failed(s, c, s.requests[c]) else s
    case Delete(id) => s.(rows := s.rows - {id})
    case DeleteArticle(a) => s.(rows := map id | id in s.rows && s.rows[id].bucket.articleId != a :: s.rows[id])
  }

  function Run(s: State, es: seq<Event>): State
    decreases |es|
  {
    if es == [] then s else Run(Step(s, es[0]), es[1..])
  }

  ghost predicate PcOk(s: State, c: int, pc: Pc) {
    match pc
    case Holding(b, _) => b in s.locks && s.locks[b] == c
    case Counted(b, _, used) => b in s.locks && s.locks[b] == c && Used(s.rows, b) <= used < Cap(b)
    case _ => true
  }

  ghost predicate Inv(s: State) {
    && WithinCaps(s.rows)
    && (forall id | id in s.rows :: id < s.nextId)
    && (forall c | c in s.requests :: PcOk(s, c, s.requests[c]))
  }

  /** Every step but the insert only takes rows away or confirms them. */
  lemma OtherStepsUseFewer(s: State, e: Event, b: Bucket)
    requires !(e.Advance? && e.client in s.requests && s.requests[e.client].Counted?)
    ensures Used(Step(s, e).rows, b) <= Used(s.rows, b)
    ensures Step(s, e).nextId == s.nextId && forall id | id in Step(s, e).rows :: id in s.rows
  {
    FewerUse(s.rows, Step(s, e).rows, b);
  }

  /** A request that stands still keeps its lock: no other request lets go of it. */
  lemma StandingKeepsPc(s: State, e: Event, c: int)
    requires Inv(s) && c in s.requests && c in Step(s, e).requests && Step(s, e).requests[c] == s.requests[c]
    requires forall b :: Used(Step(s, e).rows, b) <= Used(s.rows, b)
    ensures PcOk(Step(s, e), c, s.requests[c])
  {
    assert PcOk(s, c, s.requests[c]);
    if (e.Advance? || e.Fail?) && e.client in s.requests {
      assert PcOk(s, e.client, s.requests[e.client]);
    }
  }

  lemma MovingKeepsPc(s: State, e: Event, c: int)
    requires Inv(s) && c in Step(s, e).requests && (c in s.requests ==> Step(s, e).requests[c] != s.requests[c])
    ensures PcOk(Step(s, e), c, Step(s, e).requests[c])
  {
    assert c in s.requests ==> PcOk(s, c, s.requests[c]);
  }

  lemma OtherStepKeepsInv(s: State, e: Event)
    requires Inv(s) && !(e.Advance? && e.client in s.requests && s.requests[e.client].Counted?)
    ensures Inv(Step(s, e))
  {
    var s' := Step(s, e);
    forall b ensures Used(s'.rows, b) <= Used(s.rows, b) {
      OtherStepsUseFewer(s, e, b);
    }
    assert WithinCaps(s'.rows);
    forall id | id in s'.rows ensures id < s'.nextId {
      OtherStepsUseFewer(s, e, Bucket(0, IMAGE));
    }
    forall c | c in s'.requests ensures PcOk(s', c, s'.requests[c]) {
      if c in s.requests && s.requests[c] == s'.requests[c] {
        StandingKeepsPc(s, e, c);
      } else {
        MovingKeepsPc(s, e, c);
      }
    }
  }

  lemma InsertKeepsInv(s: State, c: int)
    requires Inv(s) && c in s.requests && s.requests[c].Counted?
    ensures Inv(Step(s, Advance(c)))
  {
    var s', bucket := Step(s, Advance(c)), s.requests[c].bucket;
    assert PcOk(s, c, s.requests[c]);
    forall b ensures Used(s'.rows, b) == Used(s.rows, b) + if b == bucket then 1 else 0 {
      InsertUses(s.rows, s.nextId, Reserved(bucket, s.requests[c].caption, s.requests[c].used), b);
    }
    forall d | d in s'.requests ensures PcOk(s', d, s'.requests[d]) {
      assert d != c ==> PcOk(s, d, s.requests[d]);
    }
  }

  function Init(): State { State(map[], 0, map[], map[]) }

  lemma InitHasInv()
    ensures Inv(Init())
  {
  }

  /** In every interleaving, with any number of clients, the pending and confirmed rows
      of a type on an article never exceed its cap. */
  lemma {:induction false} CapsHold(s: State, es: seq<Event>)
    requires Inv(s)
    ensures Inv(Run(s, es))
    ensures forall b :: Used(Run(s, es).rows, b) <= if b.mediaType == IMAGE then 15 else 3
    decreases |es|
  {
    if es != [] {
      var e := es[0];
      if e.Advance? && e.client in s.requests && s.requests[e.client].Counted? {
        InsertKeepsInv(s, e.client);
      } else {
        OtherStepKeepsInv(s, e);
      }
      CapsHold(Step(s, e), es[1..]);
    }
  }

  /** A confirmation that nothing disturbs, of a row that is not confirmed yet or is, sets
      status and details; an oversize upload loses the row only if it was not. */
  lemma ConfirmAlone(s: State, c: int, id: nat, details: Details)
    requires c !in s.requests && id in s.rows
    ensures var started := Step(s, StartConfirm(c, id, details));
      && Step(started, Advance(c)).rows == s.rows[id := Confirmed(s.rows[id], details)]
      && c !in Step(started, Advance(c)).requests && c !in Step(started, Fail(c)).requests
      && Step(started, Fail(c)).rows == (if s.rows[id].status == PENDING then s.rows - {id} else s.rows)
      && Step(started, GiveUp(c)).rows == s.rows
      && (s.rows[id].status == PENDING ==> c !in Step(started, GiveUp(c)).requests)
  {
  }

  /** Deletions take out the row named, or the rows of the article named, and no other. */
  lemma DeletionsAreExact(s: State, id: nat, articleId: int, k: nat)
    ensures k in Step(s, Delete(id)).rows <==> k in s.rows && k != id
    ensures k in Step(s, DeleteArticle(articleId)).rows <==> k in s.rows && s.rows[k].bucket.articleId != articleId
    ensures k in Step(s, Delete(id)).rows ==> Step(s, Delete(id)).rows[k] == s.rows[k]
    ensures k in Step(s, DeleteArticle(articleId)).rows ==> Step(s, DeleteArticle(articleId)).rows[k] == s.rows[k]
  {
  }

  lemma HolderInserts(s: State, c: int, b: Bucket, caption: Option<string>)
    requires c in s.requests && s.requests[c] == Holding(b, caption)
    ensures var s', used := Step(Step(Step(s, Advance(c)), Advance(c)), Advance(c)), Used(s.rows, b);
      && s'.rows == (if used < Cap(b) then s.rows[s.nextId := Reserved(b, caption, used)] else s.rows)
      && s'.locks == s.locks - {b} && s'.requests == s.requests - {c}
  {
    var s1 := Step(s, Advance(c));
    if Used(s.rows, b) < Cap(b) {
      assert s1 == s.(requests := s.requests[c := Counted(b, caption, Used(s.rows, b))]);
      var s2 := Step(s1, Advance(c));
      assert s2.requests == s.requests[c := Signing(s.nextId)] && s2.requests - {c} == s.requests - {c};
    } else {
      assert c !in s1.requests;
    }
  }

  /** A presign that nothing disturbs does what the service method does past its gate:
      lock, count, insert at the end, sign, or nothing when the cap is reached. */
  lemma PresignAlone(s: State, c: int, b: Bucket, caption: Option<string>)
    requires c !in s.requests && b !in s.locks
    ensures var s0 := Step(s, Presign(c, b, caption));
            var s', used := Step(Step(Step(Step(s0, Advance(c)), Advance(c)), Advance(c)), Advance(c)), Used(s.rows, b);
      && s'.rows == (if used < (if b.mediaType == IMAGE then 15 else 3) then s.rows[s.nextId := Reserved(b, caption, used)] else s.rows)
      && s'.locks == s.locks && s'.requests == s.requests
  {
    var s1 := Step(Step(s, Presign(c, b, caption)), Advance(c));
    assert s1 == s.(locks := s.locks[b := c], requests := s.requests[c := Holding(b, caption)]);
    HolderInserts(s1, c, b, caption);
    assert s1.locks - {b} == s.locks && s1.requests - {c} == s.requests;
  }

  /** A reservation that fails to sign leaves the slots as they were before it, whatever
      else comes and goes: the row it takes out is the one it put in. */
  lemma FailedSignFreesItsSlot(s: State, c: int, between: seq<Event>)
    requires Inv(s) && c in s.requests && s.requests[c].Counted?
    requires var s' := Run(Step(s, Advance(c)), between); c in s'.requests && s'.requests[c] == Signing(s.nextId)
    requires s.nextId in Run(Step(s, Advance(c)), between).rows
    ensures var s' := Run(Step(s, Advance(c)), between);
            var bucket := s.requests[c].bucket;
      && s'.rows[s.nextId].bucket == bucket
      && Used(Step(s', Fail(c)).rows, bucket) == Used(s'.rows, bucket) - 1
      && forall b | b != bucket :: Used(Step(s', Fail(c)).rows, b) == Used(s'.rows, b)
  {
    var s1 := Step(s, Advance(c));
    CapsHold(s, [Advance(c)]);
    assert Run(s, [Advance(c)]) == Run(s1, []);
    RowKeepsBucket(s1, between, s.nextId);
    var s' := Run(s1, between);
    var after := Step(s', Fail(c)).rows;
    forall b ensures Used(s'.rows, b) == Used(after, b) + if s'.rows[s.nextId].bucket == b then 1 else 0 {
      InsertUses(after, s.nextId, s'.rows[s.nextId], b);
      assert after[s.nextId := s'.rows[s.nextId]] == s'.rows;
    }
  }

  lemma StepKeepsBucket(s: State, e: Event, id: nat)
    requires id < s.nextId && id in Step(s, e).rows && forall k | k in s.rows :: k < s.nextId
    ensures id in s.rows && Step(s, e).rows[id].bucket == s.rows[id].bucket
  {
  }

  lemma StepKeepsIds(s: State, e: Event)
    requires forall k | k in s.rows :: k < s.nextId
    ensures s.nextId <= Step(s, e).nextId && forall k | k in Step(s, e).rows :: k < Step(s, e).nextId
  {
  }

  lemma {:induction false} RowKeepsBucket(s: State, es: seq<Event>, id: nat)
    requires id < s.nextId && id in Run(s, es).rows && (forall k | k in s.rows :: k < s.nextId)
    ensures id in s.rows && Run(s, es).rows[id].bucket == s.rows[id].bucket
    decreases |es|
  {
    if es != [] {
      StepKeepsIds(s, es[0]);
      RowKeepsBucket(Step(s, es[0]), es[1..], id);
      StepKeepsBucket(s, es[0], id);
    }
  }
}
