/** The moderation workflow of an article: guarded decisions, unguarded writes, and what
    holds when the halves of the handlers interleave. */
module Articles {
  import opened Wrappers

  datatype Status = DRAFT | SUBMITTED | APPROVED | REJECTED | PUBLISHED | ARCHIVED

  /** What readers see: title, body, excerpt, cover and tags, by field. */
  type Content = map<string, string>

  datatype Article = Article(authorId: int, status: Status, publishedAt: Option<int>,
                             rejectionReason: Option<string>, reviewedBy: Option<int>, content: Content)

  datatype ArticleError =
    | NotFound | NotEditable | BadCover | NotSubmittable | NotPending | AlreadyRejected | LostRace

  // ----- the handlers: a read that decides, then a write

  /** `coverOk` says that the edit sets no cover, or one the article owns. */
  datatype Request =
    | Edit(authorId: int, edits: Content, coverOk: bool)
    | Submit(authorId: int)
    | Approve(adminId: int)
    | Reject(adminId: int, reason: string)
    | AdminUpdate(edits: Content, coverOk: bool, unpublish: bool)
    | Restore(adminId: int)

  /** What a handler has decided to write. */
  datatype Pending =
    | Editing(edits: Content)
    | Submitting
    | Approving(adminId: int)
    | Rejecting(adminId: int, reason: string)
    | Updating(edits: Content, unpublish: bool)
    | Restoring(adminId: int, publishedAt: Option<int>)

  /** The states in which the author may edit, and from which the author may submit. */
  predicate AuthorEditable(status: Status) { status.DRAFT? || status.REJECTED? }

  /** The read half: an error, nothing left to do (`Ok(None)`), or a write to make. */
  function Read(row: Option<Article>, r: Request): Result<Option<Pending>, ArticleError> {
    if row.None? then Err(NotFound)
    else
      var a := row.value;
      match r
      case Edit(authorId, edits, coverOk) =>
        if a.authorId != authorId then Err(NotFound)
        else if !AuthorEditable(a.status) then Err(NotEditable)
        else if !coverOk then Err(BadCover)
        else Ok(Some(Editing(edits)))
      case Submit(authorId) =>
        if a.authorId != authorId then Err(NotFound)
        else if a.status.SUBMITTED? then Ok(None)
        else if AuthorEditable(a.status) then Ok(Some(Submitting))
        else Err(NotSubmittable)
      case Approve(adminId) =>
        if a.status.PUBLISHED? then Ok(None)
        else if !a.status.SUBMITTED? then Err(NotPending)
        else Ok(Some(Approving(adminId)))
      case Reject(adminId, reason) =>
        if a.status.REJECTED? then Err(AlreadyRejected)
        else if !a.status.SUBMITTED? then Err(NotPending)
        else Ok(Some(Rejecting(adminId, reason)))
      case AdminUpdate(edits, coverOk, unpublish) =>
        if coverOk then Ok(Some(Updating(edits, unpublish))) else Err(BadCover)
      case Restore(adminId) =>
        if a.status.PUBLISHED? then Ok(None) else Ok(Some(Restoring(adminId, a.publishedAt)))
  }

  /** The write half. Approve and reject are guarded by the status; the others are not. */
  function Write(row: Option<Article>, p: Pending, now: int): Option<Article> {
    if row.None? then None
    else
      var a := row.value;
      match p
      case Editing(edits) => Some(a.(content := a.content + edits))
      case Submitting => Some(a.(status := SUBMITTED, rejectionReason := None))
      case Approving(adminId) =>
        if a.status.SUBMITTED?
        then Some(a.(status := PUBLISHED, publishedAt := Some(now), reviewedBy := Some(adminId), rejectionReason := None))
        else row
      case Rejecting(adminId, reason) =>
        if a.status.SUBMITTED?
        then Some(a.(status := REJECTED, rejectionReason := Some(reason), reviewedBy := Some(adminId)))
        else row
      case Updating(edits, unpublish) =>
        var edited := a.(content := a.content + edits);
        Some(if unpublish then edited.(status := ARCHIVED, publishedAt := None) else edited)
      case Restoring(adminId, publishedAt) =>
        Some(a.(status := PUBLISHED, publishedAt := if publishedAt.Some? then publishedAt else Some(now),
                reviewedBy := Some(adminId), rejectionReason := None))
  }

  function NewArticle(authorId: int, content: Content, asDraft: bool): Article {
    Article(authorId, if asDraft then DRAFT else SUBMITTED, None, None, None, content)
  }

  /** A handler that nothing disturbs. */
  function Handle(row: Option<Article>, r: Request, now: int): Option<Article> {
    match Read(row, r)
    case Ok(Some(p)) => Write(row, p, now)
    case _ => row
  }

  // ----- the service's methods, each run on its own

  class ArticlesService {
    var articles: map<int, Article>

    constructor ()
      ensures articles == map[]
    {
      articles := map[];
    }

    function Row(id: int): Option<Article> reads this {
      if id in articles then Some(articles[id]) else None
    }

    method Create(id: int, authorId: int, content: Content, asDraft: bool)
      requires id !in articles
      modifies this
      ensures Row(id) == Some(NewArticle(authorId, content, asDraft))
      ensures forall k | k != id :: Row(k) == old(Row(k))
    {
      var status := if asDraft then DRAFT else SUBMITTED;
      articles := articles[id := Article(authorId, status, None, None, None, content)];
    }

    method UpdateMine(id: int, authorId: int, edits: Content, coverOk: bool, now: int)
      returns (error: Option<ArticleError>)
      modifies this
      ensures error == ErrorOf(Read(old(Row(id)), Edit(authorId, edits, coverOk)))
      ensures Row(id) == Handle(old(Row(id)), Edit(authorId, edits, coverOk), now)
      ensures forall k | k != id :: Row(k) == old(Row(k))
    {
      if id !in articles || articles[id].authorId != authorId {
        return Some(NotFound);
      }
      if !AuthorEditable(articles[id].status) {
        return Some(NotEditable);
      }
      if !coverOk {
        return Some(BadCover);
      }
      articles := articles[id := articles[id].(content := articles[id].content + edits)];
      return None;
    }

    /** Inline edits first, if there are any; if they fail, nothing is submitted. */
    method SubmitMine(id: int, authorId: int, edits: Content, coverOk: bool, now: int)
      returns (error: Option<ArticleError>)
      modifies this
      ensures var edit := Edit(authorId, edits, coverOk);
              var failed := if edits == map[] then None else ErrorOf(Read(old(Row(id)), edit));
              var edited := if edits == map[] then old(Row(id)) else Handle(old(Row(id)), edit, now);
        && error == (if failed.Some? then failed else ErrorOf(Read(edited, Submit(authorId))))
        && Row(id) == if failed.Some? then old(Row(id)) else Handle(edited, Submit(authorId), now)
      ensures forall k | k != id :: Row(k) == old(Row(k))
    {
      if edits != map[] {
        error := UpdateMine(id, authorId, edits, coverOk, now);
        if error.Some? {
          return;
        }
      }
      if id !in articles || articles[id].authorId != authorId {
        return Some(NotFound);
      }
      var existing := articles[id];
      if existing.status.SUBMITTED? {
        return None;
      }
      if !AuthorEditable(existing.status) {
        return Some(NotSubmittable);
      }
      articles := articles[id := articles[id].(status := SUBMITTED, rejectionReason := None)];
      return None;
    }

    method Approve(id: int, adminId: int, now: int) returns (error: Option<ArticleError>)
      modifies this
      ensures error == ErrorOf(Read(old(Row(id)), Request.Approve(adminId)))
      ensures Row(id) == Handle(old(Row(id)), Request.Approve(adminId), now)
      ensures forall k | k != id :: Row(k) == old(Row(k))
    {
      if id !in articles {
        return Some(NotFound);
      }
      if articles[id].status.PUBLISHED? {
        return None;
      }
      if !articles[id].status.SUBMITTED? {
        return Some(NotPending);
      }
      var swapped := CompareAndSwap(id, Approving(adminId), now);
      return if swapped then None else Some(LostRace);
    }

    method Reject(id: int, adminId: int, reason: string, now: int) returns (error: Option<ArticleError>)
      modifies this
      ensures error == ErrorOf(Read(old(Row(id)), Request.Reject(adminId, reason)))
      ensures Row(id) == Handle(old(Row(id)), Request.Reject(adminId, reason), now)
      ensures forall k | k != id :: Row(k) == old(Row(k))
    {
      if id !in articles {
        return Some(NotFound);
      }
      if articles[id].status.REJECTED? {
        return Some(AlreadyRejected);
      }
      if !articles[id].status.SUBMITTED? {
        return Some(NotPending);
      }
      var swapped := CompareAndSwap(id, Rejecting(adminId, reason), now);
      return if swapped then None else Some(LostRace);
    }

    /** The guarded update of a decision; tells whether it hit the row. */
    method CompareAndSwap(id: int, p: Pending, now: int) returns (swapped: bool)
      requires p.Approving? || p.Rejecting?
      modifies this
      ensures swapped <==> id in old(articles) && old(articles)[id].status.SUBMITTED?
      ensures Row(id) == Write(old(Row(id)), p, now)
      ensures forall k | k != id :: Row(k) == old(Row(k))
    {
      if id !in articles || !articles[id].status.SUBMITTED? {
        return false;
      }
      if p.Approving? {
        articles := articles[id := articles[id].(status := PUBLISHED, publishedAt := Some(now),
                                                 reviewedBy := Some(p.adminId), rejectionReason := None)];
      } else {
        articles := articles[id := articles[id].(status := REJECTED, rejectionReason := Some(p.reason),
                                                 reviewedBy := Some(p.adminId))];
      }
      return true;
    }

    method AdminUpdate(id: int, edits: Content, coverOk: bool, unpublish: bool, now: int)
      returns (error: Option<ArticleError>)
      modifies this
      ensures error == ErrorOf(Read(old(Row(id)), Request.AdminUpdate(edits, coverOk, unpublish)))
      ensures Row(id) == Handle(old(Row(id)), Request.AdminUpdate(edits, coverOk, unpublish), now)
      ensures forall k | k != id :: Row(k) == old(Row(k))
    {
      if id !in articles {
        return Some(NotFound);
      }
      if !coverOk {
        return Some(BadCover);
      }
      var data := articles[id].(content := articles[id].content + edits);
      if unpublish {
        data := data.(status := ARCHIVED, publishedAt := None);
      }
      articles := articles[id := data];
      return None;
    }

    method Restore(id: int, adminId: int, now: int) returns (error: Option<ArticleError>)
      modifies this
      ensures error == ErrorOf(Read(old(Row(id)), Request.Restore(adminId)))
      ensures Row(id) == Handle(old(Row(id)), Request.Restore(adminId), now)
      ensures forall k | k != id :: Row(k) == old(Row(k))
    {
      if id !in articles {
        return Some(NotFound);
      }
      var existing := articles[id];
      if existing.status.PUBLISHED? {
        return None;
      }
      var date := if existing.publishedAt.Some? then existing.publishedAt else Some(now);
      articles := articles[id := articles[id].(status := PUBLISHED, publishedAt := date,
                                               reviewedBy := Some(adminId), rejectionReason := None)];
      return None;
    }
  }

  function ErrorOf(r: Result<Option<Pending>, ArticleError>): (error: Option<ArticleError>)
    ensures error.None? <==> r.Ok?
    ensures forall e :: error == Some(e) <==> r == Err(e)
  {
    match r
    case Ok(_) => None
    case Err(e) => Some(e)
  }

  // ----- every interleaving of the halves, on one article

  /** `entries` counts the moves into SUBMITTED, `decisions` the approvals and rejections
      that went through. */
  datatype State = State(row: Option<Article>, created: bool, now: int, inflight: map<int, Pending>,
                         entries: nat, decisions: nat)

  datatype Event =
    | Create(authorId: int, content: Content, asDraft: bool)
    | Start(client: int, request: Request)
    | Commit(client: int)
    | Delete
    | Tick(elapsed: nat)
    | Abort(client: int)

  predicate IsSubmitted(row: Option<Article>) { row.Some? && row.value.status.SUBMITTED? }

  /** Does the write settle the article's case? */
  predicate Decides(row: Option<Article>, p: Pending) {
    (p.Approving? || p.Rejecting?) && IsSubmitted(row)
  }

  function Step(s: State, e: Event): State {
    match e
    case Create(authorId, content, asDraft) =>
      if s.created then s
      else s.(row := Some(NewArticle(authorId, content, asDraft)), created := true,
              entries := if asDraft then s.entries else s.entries + 1)
    case Start(c, request) =>
      if c in s.inflight then s
      else (match Read(s.row, request)
            case Ok(Some(p)) => s.(inflight := s.inflight[c := p])
            case _ => s)
    case Commit(c) =>
      if c !in s.inflight then s
      else
        var p := s.inflight[c];
        var next := Write(s.row, p, s.now);
        s.(row := next, inflight := s.inflight - {c},
           entries := if IsSubmitted(next) && !IsSubmitted(s.row) then s.entries + 1 else s.entries,
           decisions := if Decides(s.row, p) then s.decisions + 1 else s.decisions)
    case Delete => s.(row := None)
    case Tick(d) => s.(now := s.now + d)
    case Abort(c) => s.(inflight := s.inflight - {c})
  }

  function Run(s: State, es: seq<Event>): State
    decreases |es|
  {
    if es == [] then s else Run(Step(s, es[0]), es[1..])
  }

  function Init(now: int): State { State(None, false, now, map[], 0, 0) }

  ghost predicate RowOk(row: Option<Article>) {
    row.Some? ==>
      var a := row.value;
      && !a.status.APPROVED?
      && (a.status.PUBLISHED? ==> a.publishedAt.Some? && a.reviewedBy.Some?)
      && (a.status.REJECTED? ==> a.rejectionReason.Some? && a.reviewedBy.Some?)
      && (a.rejectionReason.Some? ==> a.status.REJECTED? || a.status.ARCHIVED?)
  }

  /** No date lies in the future, on the row or in a write to come. */
  ghost predicate DatesOk(s: State) {
    && (s.row.Some? && s.row.value.publishedAt.Some? ==> s.row.value.publishedAt.value <= s.now)
    && forall c | c in s.inflight && s.inflight[c].Restoring? && s.inflight[c].publishedAt.Some? ::
         s.inflight[c].publishedAt.value <= s.now
  }

  ghost predicate Inv(s: State) {
    && RowOk(s.row) && DatesOk(s)
    && (s.row.Some? ==> s.created)
    && s.decisions + (if IsSubmitted(s.row) then 1 else 0) <= s.entries
  }

  lemma StepKeepsInv(s: State, e: Event)
    requires Inv(s)
    ensures Inv(Step(s, e))
  {
  }

  lemma {:induction false} RunKeepsInv(s: State, es: seq<Event>)
    requires Inv(s)
    ensures Inv(Run(s, es))
    decreases |es|
  {
    if es != [] {
      StepKeepsInv(s, es[0]);
      RunKeepsInv(Step(s, es[0]), es[1..]);
    }
  }

  /** In every run: APPROVED is never reached; a published article has its date, not in the
      future, and its reviewer; a rejected one its reason and its reviewer; a reason stands
      only on a rejected or archived article; and there are no more decisions than times
      the article entered the queue. */
  lemma WorkflowIsSound(now: int, es: seq<Event>)
    ensures var s := Run(Init(now), es);
      && (s.row.Some? ==>
            var a := s.row.value;
            && !a.status.APPROVED?
            && (a.status.PUBLISHED? ==> a.publishedAt.Some? && a.publishedAt.value <= s.now && a.reviewedBy.Some?)
            && (a.status.REJECTED? ==> a.rejectionReason.Some? && a.reviewedBy.Some?)
            && (a.rejectionReason.Some? ==> a.status.REJECTED? || a.status.ARCHIVED?))
      && s.decisions <= s.entries && (IsSubmitted(s.row) ==> s.decisions < s.entries)
  {
    RunKeepsInv(Init(now), es);
  }

  /** What a decision does to a submitted article: an approval publishes it now, a
      rejection keeps it out with the reason given; both name the administrator, and leave
      author and content alone. On any other article neither does anything. */
  lemma DecisionsTakeEffect(s: State, c: int)
    requires c in s.inflight && (s.inflight[c].Approving? || s.inflight[c].Rejecting?)
    ensures var s', p := Step(s, Commit(c)), s.inflight[c];
      && c !in s'.inflight
      && (!IsSubmitted(s.row) ==> s'.row == s.row && s'.decisions == s.decisions)
      && (IsSubmitted(s.row) ==>
            && s'.row.Some? && s'.decisions == s.decisions + 1
            && var a, b := s.row.value, s'.row.value;
            && b.reviewedBy == Some(p.adminId) && b.authorId == a.authorId && b.content == a.content
            && (p.Approving? ==> b.status == PUBLISHED && b.publishedAt == Some(s.now) && b.rejectionReason == None)
            && (p.Rejecting? ==>
                  b.status == REJECTED && b.rejectionReason == Some(p.reason) && b.publishedAt == a.publishedAt))
  {
  }

  /** What the other writes do to an article, whatever its state by then. */
  lemma WritesTakeEffect(s: State, c: int)
    requires c in s.inflight && s.row.Some?
    ensures var s', p := Step(s, Commit(c)), s.inflight[c];
      && s'.row.Some?
      && var a, b := s.row.value, s'.row.value;
      && b.authorId == a.authorId
      && (p.Submitting? ==>
            b.status == SUBMITTED && b.rejectionReason == None && b.publishedAt == a.publishedAt
            && b.reviewedBy == a.reviewedBy && b.content == a.content)
      && (p.Restoring? ==>
            b.status == PUBLISHED && b.rejectionReason == None && b.reviewedBy == Some(p.adminId) && b.content == a.content
            && (p.publishedAt.Some? ==> b.publishedAt == p.publishedAt)
            && (p.publishedAt.None? ==> b.publishedAt == Some(s.now)))
      && (Edits(p) ==>
            && (forall k | k in p.edits :: k in b.content && b.content[k] == p.edits[k])
            && (forall k | k !in p.edits :: (k in b.content <==> k in a.content)
                                           && (k in a.content ==> b.content[k] == a.content[k]))
            && b.rejectionReason == a.rejectionReason && b.reviewedBy == a.reviewedBy)
      && (p.Editing? || (p.Updating? && !p.unpublish) ==> b.status == a.status && b.publishedAt == a.publishedAt)
      && (p.Updating? && p.unpublish ==> b.status == ARCHIVED && b.publishedAt == None)
  {
  }

  /** Is the article in this status? */
  predicate Is(row: Option<Article>, status: Status) { row.Some? && row.value.status == status }

  /** Exactly how an article gets into each status. */
  lemma StatusIsEnteredExactly(s: State, e: Event)
    requires s.row.Some? ==> s.created
    ensures var row, writes := Step(s, e).row, e.Commit? && e.client in s.inflight && s.row.Some?;
      && (Is(row, PUBLISHED) && !Is(s.row, PUBLISHED) <==>
            writes && !Is(s.row, PUBLISHED)
            && ((s.inflight[e.client].Approving? && Is(s.row, SUBMITTED)) || s.inflight[e.client].Restoring?))
      && (Is(row, REJECTED) && !Is(s.row, REJECTED) <==> writes && s.inflight[e.client].Rejecting? && Is(s.row, SUBMITTED))
      && (Is(row, SUBMITTED) && !Is(s.row, SUBMITTED) <==>
            (writes && s.inflight[e.client].Submitting? && !Is(s.row, SUBMITTED))
            || (e.Create? && !s.created && !e.asDraft))
      && (Is(row, ARCHIVED) && !Is(s.row, ARCHIVED) <==>
            writes && s.inflight[e.client].Updating? && s.inflight[e.client].unpublish && !Is(s.row, ARCHIVED))
      && (Is(row, DRAFT) && !Is(s.row, DRAFT) <==> e.Create? && !s.created && e.asDraft)
      && (row.None? && s.row.Some? <==> e.Delete? && s.row.Some?)
    ensures var s' := Step(s, e);
      && s'.entries == (if Is(s'.row, SUBMITTED) && !Is(s.row, SUBMITTED) then s.entries + 1 else s.entries)
      && (s'.decisions == s.decisions + 1 <==>
            e.Commit? && e.client in s.inflight && Is(s.row, SUBMITTED)
            && (s.inflight[e.client].Approving? || s.inflight[e.client].Rejecting?))
      && s.decisions <= s'.decisions <= s.decisions + 1
  {
  }

  /** What each request decides from each status: which are refused and why, which have
      nothing to do, and which go on to write what was asked. */
  lemma RequestsDecide(a: Article, author: int, admin: int, reason: string, edits: Content, coverOk: bool, unpublish: bool)
    ensures Read(Some(a), Submit(author))
         == if author != a.authorId then Err(NotFound)
            else if a.status in {DRAFT, REJECTED} then Ok(Some(Submitting))
            else if a.status == SUBMITTED then Ok(None)
            else Err(NotSubmittable)
    ensures Read(Some(a), Edit(author, edits, coverOk))
         == if author != a.authorId then Err(NotFound)
            else if a.status !in {DRAFT, REJECTED} then Err(NotEditable)
            else if coverOk then Ok(Some(Editing(edits)))
            else Err(BadCover)
    ensures Read(Some(a), Approve(admin))
         == if a.status == SUBMITTED then Ok(Some(Approving(admin)))
            else if a.status == PUBLISHED then Ok(None)
            else Err(NotPending)
    ensures Read(Some(a), Reject(admin, reason))
         == if a.status == SUBMITTED then Ok(Some(Rejecting(admin, reason)))
            else if a.status == REJECTED then Err(AlreadyRejected)
            else Err(NotPending)
    ensures Read(Some(a), Restore(admin))
         == if a.status == PUBLISHED then Ok(None) else Ok(Some(Restoring(admin, a.publishedAt)))
    ensures Read(Some(a), AdminUpdate(edits, coverOk, unpublish))
         == if coverOk then Ok(Some(Updating(edits, unpublish))) else Err(BadCover)
    ensures forall r :: Read(None, r) == Err(NotFound)
  {
  }

  /** A handler that nothing disturbs leads where its request says: submit, then approve
      or reject; unpublish, then restore, on a new date as the old one is gone. */
  lemma LifeOfAnArticle(author: int, admin: int, reason: string, content: Content, t: int, u: int, v: int)
    ensures var draft := Some(NewArticle(author, content, true));
            var submitted := Handle(draft, Submit(author), t);
            var published := Handle(submitted, Approve(admin), u);
            var rejected := Handle(submitted, Reject(admin, reason), u);
            var archived := Handle(published, AdminUpdate(map[], true, true), v);
      && submitted == Some(NewArticle(author, content, false))
      && published == Some(Article(author, PUBLISHED, Some(u), None, Some(admin), content))
      && rejected == Some(Article(author, REJECTED, None, Some(reason), Some(admin), content))
      && Handle(rejected, Submit(author), v) == Some(Article(author, SUBMITTED, None, None, Some(admin), content))
      && archived == Some(Article(author, ARCHIVED, None, None, Some(admin), content))
      && Handle(archived, Restore(admin), v) == Some(Article(author, PUBLISHED, Some(v), None, Some(admin), content))
  {
    assert content + map[] == content;
  }

  /** Of the decisions pending on an article that is in the queue, the first to commit
      wins: while the article has not re-entered the queue, every later one is a no-op. */
  lemma {:induction false} FirstDecisionStands(s: State, c: int, d: int, es: seq<Event>)
    requires c in s.inflight && Decides(s.row, s.inflight[c])
    requires var s' := Run(Step(s, Commit(c)), es);
             d in s'.inflight && (s'.inflight[d].Approving? || s'.inflight[d].Rejecting?) && s'.entries == s.entries
    ensures var s' := Run(Step(s, Commit(c)), es);
            Step(s', Commit(d)) == s'.(inflight := s'.inflight - {d})
  {
    StaysOutOfQueue(Step(s, Commit(c)), es);
  }

  lemma {:induction false} StaysOutOfQueue(s: State, es: seq<Event>)
    requires !IsSubmitted(s.row)
    ensures s.entries <= Run(s, es).entries
    ensures Run(s, es).entries == s.entries ==> !IsSubmitted(Run(s, es).row)
    decreases |es|
  {
    if es != [] {
      var s1 := Step(s, es[0]);
      if IsSubmitted(s1.row) {
        EntriesGrow(s1, es[1..]);
      } else {
        StaysOutOfQueue(s1, es[1..]);
      }
    }
  }

  lemma {:induction false} EntriesGrow(s: State, es: seq<Event>)
    ensures s.entries <= Run(s, es).entries
    decreases |es|
  {
    if es != [] {
      EntriesGrow(Step(s, es[0]), es[1..]);
    }
  }

  // ----- the publish date and the status

  /** An article has a publish date exactly while it is published. */
  ghost predicate DateMatches(row: Option<Article>) {
    row.Some? ==> (row.value.publishedAt.Some? <==> row.value.status.PUBLISHED?)
  }

  /** The one write that breaks this: a submission decided on before the article was published. */
  predicate SubmitsPublished(s: State, e: Event) {
    e.Commit? && e.client in s.inflight && s.inflight[e.client].Submitting?
    && s.row.Some? && s.row.value.status.PUBLISHED?
  }

  lemma DateIsKeptExactly(s: State, e: Event)
    requires DateMatches(s.row)
    ensures DateMatches(Step(s, e).row) <==> !SubmitsPublished(s, e)
  {
  }

  /** Handlers that do not overlap keep it, and then only an administrator takes an
      article out of PUBLISHED. */
  lemma UndisturbedHandlers(row: Option<Article>, r: Request, now: int)
    requires DateMatches(row)
    ensures DateMatches(Handle(row, r, now))
    ensures row.Some? && row.value.status.PUBLISHED? && !r.AdminUpdate? ==> Handle(row, r, now) == row
  {
  }

  // ----- what readers get to see

  /** The author's edits, and the administrators'. */
  predicate Edits(p: Pending) { p.Editing? || p.Updating? }

  /** Does the step write an edit that makes a difference? */
  predicate WritesEdit(s: State, e: Event) {
    e.Commit? && e.client in s.inflight && Edits(s.inflight[e.client])
    && s.row.Some? && s.row.value.content + s.inflight[e.client].edits != s.row.value.content
  }

  /** The article is out of its author's hands: in the queue, published or archived. */
  predicate OutOfHands(row: Option<Article>) { row.Some? && !AuthorEditable(row.value.status) }

  /** Out of its author's hands an article keeps its content in every step but the write of
      an edit: an administrator's, or one the author decided on before. */
  lemma ContentIsKeptExactly(s: State, e: Event)
    requires Inv(s) && OutOfHands(s.row) && !e.Delete?
    ensures Step(s, e).row.Some?
    ensures Step(s, e).row.value.content == s.row.value.content <==> !WritesEdit(s, e)
  {
  }

  /** No edit is in flight that would make a difference. */
  ghost predicate NoEdits(s: State) {
    forall c | c in s.inflight && Edits(s.inflight[c]) :: s.inflight[c].edits == map[]
  }

  /** The article stays out of its author's hands, and no administrator edits it. */
  predicate StaysOut(s: State, es: seq<Event>)
    decreases |es|
  {
    && OutOfHands(s.row)
    && (es != [] ==>
          && !es[0].Delete? && (es[0].Start? && es[0].request.AdminUpdate? ==> es[0].request.edits == map[])
          && StaysOut(Step(s, es[0]), es[1..]))
  }

  /** What is submitted with no edit in flight is what is reviewed and published, for as
      long as it stays so. */
  lemma {:induction false} ReviewedIsPublished(s: State, es: seq<Event>)
    requires Inv(s) && NoEdits(s) && StaysOut(s, es)
    ensures Run(s, es).row.Some? && Run(s, es).row.value.content == s.row.value.content
    decreases |es|
  {
    if es != [] {
      StepKeepsInv(s, es[0]);
      ContentIsKeptExactly(s, es[0]);
      ReviewedIsPublished(Step(s, es[0]), es[1..]);
    }
  }

  lemma RunOfFive(s: State, a: Event, b: Event, c: Event, d: Event, e: Event)
    ensures Run(s, [a, b, c, d, e]) == Step(Step(Step(Step(Step(s, a), b), c), d), e)
  {
    assert [a, b, c, d, e][1..] == [b, c, d, e] && [b, c, d, e][1..] == [c, d, e];
    assert [c, d, e][1..] == [d, e] && [d, e][1..] == [e] && [e][1..] == [];
    var s2 := Step(Step(s, a), b);
    assert Run(Step(Step(s2, c), d), [e]) == Run(Step(Step(Step(s2, c), d), e), []);
    assert Run(s2, [c, d, e]) == Run(Step(s2, c), [d, e]) == Run(Step(Step(s2, c), d), [e]);
  }

  /** An edit that overlaps a publication goes live unreviewed. */
  lemma LateEditGoesLive(author: int, admin: int, before: Content, edits: Content)
    ensures var es := [Create(author, before, true), Start(0, Edit(author, edits, true)), Start(1, Restore(admin)),
                       Commit(1), Commit(0)];
            var row := Run(Init(0), es).row;
            row.Some? && row.value.status.PUBLISHED? && row.value.content == before + edits
  {
    RunOfFive(Init(0), Create(author, before, true), Start(0, Edit(author, edits, true)), Start(1, Restore(admin)),
              Commit(1), Commit(0));
  }

  /** And a submission that overlaps one can pull the article back into the queue. */
  lemma SubmitCanUnpublish(author: int, admin: int, content: Content)
    ensures var es := [Create(author, content, true), Start(0, Submit(author)), Start(1, Restore(admin)), Commit(1), Commit(0)];
            Run(Init(0), es).row == Some(Article(author, SUBMITTED, Some(0), None, Some(admin), content))
  {
    RunOfFive(Init(0), Create(author, content, true), Start(0, Submit(author)), Start(1, Restore(admin)), Commit(1), Commit(0));
  }
}
