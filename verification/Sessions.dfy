/** Console sessions: opaque bearer tokens with a sliding time to live, an absolute
    lifetime, lazy deletion and a prune when many are held. */
module Sessions {
  import opened Common

  const PRUNE_THRESHOLD: nat := 4096

  datatype Policy = Policy(ttl: int, maxLife: int)

  datatype Book = Book(expiry: map<string, int>, created: map<string, int>)

  datatype Event = Issue(tok: string, at: int) | Use(tok: string, at: int) | Revoke(tok: string, at: int)

  const EMPTY: Book := Book(map[], map[])

  function Drop(b: Book, tok: string): Book {
    Book(b.expiry - {tok}, b.created - {tok})
  }

  predicate Dead(p: Policy, created: int, expiry: int, now: int) {
    now - created >= p.maxLife || now > expiry
  }

  /** What the prune removes; the sweep is over the created map. */
  predicate Doomed(p: Policy, b: Book, tok: string, now: int) {
    tok in b.created && tok in b.expiry && Dead(p, b.created[tok], b.expiry[tok], now)
  }

  function Pruned(p: Policy, b: Book, now: int): Book {
    if |b.expiry| > PRUNE_THRESHOLD then
      Book(map t | t in b.expiry && !Doomed(p, b, t, now) :: b.expiry[t],
           map t | t in b.created && !Doomed(p, b, t, now) :: b.created[t])
    else b
  }

  /** valid's answer. */
  predicate Accepts(p: Policy, b: Book, tok: string, now: int)
    requires b.expiry.Keys == b.created.Keys
  {
    tok != "" && tok in b.expiry && !Dead(p, b.created[tok], b.expiry[tok], now)
  }

  function Apply(p: Policy, b: Book, e: Event): (r: Book)
    requires b.expiry.Keys == b.created.Keys
    ensures r.expiry.Keys == r.created.Keys
  {
    match e
    case Issue(tok, now) =>
      var q := Pruned(p, b, now);
      Book(q.expiry[tok := now + p.ttl], q.created[tok := now])
    case Use(tok, now) =>
      if Accepts(p, b, tok, now) then b.(expiry := b.expiry[tok := now + p.ttl])
      else if tok == "" then b
      else Drop(b, tok)
    case Revoke(tok, _) => Drop(b, tok)
  }

  /** The manager's maps before event n. */
  function Before(p: Policy, es: seq<Event>, n: nat): (b: Book)
    requires n <= |es|
    ensures b.expiry.Keys == b.created.Keys
  {
    if n == 0 then EMPTY else Apply(p, Before(p, es, n - 1), es[n - 1])
  }

  /** The manager's answer to the use at n. */
  predicate Answer(p: Policy, es: seq<Event>, n: nat)
    requires n < |es|
  {
    Accepts(p, Before(p, es, n), es[n].tok, es[n].at)
  }

  /** Time does not run backwards, and a token (32 random bytes in hex) is issued once. */
  ghost predicate History(es: seq<Event>) {
    && (forall i, j :: 0 <= i <= j < |es| ==> es[i].at <= es[j].at)
    && (forall i, j :: 0 <= i < |es| && 0 <= j < |es| && es[i].Issue? && es[j].Issue? && es[i].tok == es[j].tok ==> i == j)
    && (forall i :: 0 <= i < |es| && es[i].Issue? ==> es[i].tok != "")
  }

  // ------------------------------------------------------- in terms of events

  /** Issued at i and not revoked since. */
  ghost predicate Stands(es: seq<Event>, i: nat, n: nat, tok: string) {
    && i < n <= |es| && es[i] == Issue(tok, es[i].at)
    && forall k :: i < k < n ==> !(es[k].Revoke? && es[k].tok == tok)
  }

  /** The issue itself, or a use that was answered yes. */
  ghost predicate Touch(p: Policy, es: seq<Event>, i: nat, m: nat, tok: string) {
    && i <= m < |es|
    && (m == i || (es[m].Use? && es[m].tok == tok && Answer(p, es, m)))
  }

  /** The token's last touch before n. */
  ghost predicate LastTouch(p: Policy, es: seq<Event>, i: nat, m: nat, n: nat, tok: string) {
    Touch(p, es, i, m, tok) && m < n && forall k :: m < k < n ==> !Touch(p, es, i, k, tok)
  }

  /** The maps hold the token with the times of its issue and its last touch. */
  ghost predicate Recorded(p: Policy, es: seq<Event>, i: nat, m: nat, n: nat, tok: string)
    requires n <= |es|
  {
    var b := Before(p, es, n);
    && Stands(es, i, n, tok) && LastTouch(p, es, i, m, n, tok)
    && tok in b.expiry && b.created[tok] == es[i].at && b.expiry[tok] == es[m].at + p.ttl
  }

  /** At any time from now on the token would be refused. */
  ghost predicate Finished(p: Policy, es: seq<Event>, n: nat, tok: string, now: int) {
    forall i: nat, m: nat :: Stands(es, i, n, tok) && Touch(p, es, i, m, tok) && m < n ==> Dead(p, es[i].at, es[m].at + p.ttl, now)
  }

  lemma PrunedKeeps(p: Policy, b: Book, now: int, tok: string)
    requires b.expiry.Keys == b.created.Keys
    ensures var q := Pruned(p, b, now);
            && (tok in q.expiry ==> tok in b.expiry && q.expiry[tok] == b.expiry[tok] && q.created[tok] == b.created[tok])
            && (tok in b.expiry && tok !in q.expiry ==> Dead(p, b.created[tok], b.expiry[tok], now))
  {}

  /** What one event does to one token, in the three cases that matter. */
  lemma HeldApply(p: Policy, b: Book, e: Event, tok: string)
    requires b.expiry.Keys == b.created.Keys && tok in b.expiry && !(e.Issue? && e.tok == tok)
    ensures var r := Apply(p, b, e); var accepted := e.Use? && e.tok == tok && Accepts(p, b, tok, e.at);
            && (tok in r.expiry ==> r.created[tok] == b.created[tok] && r.expiry[tok] == if accepted then e.at + p.ttl else b.expiry[tok])
            && (tok !in r.expiry ==> !accepted && ((e.Revoke? && e.tok == tok) || Dead(p, b.created[tok], b.expiry[tok], e.at) || tok == ""))
            && (e.Revoke? && e.tok == tok ==> tok !in r.expiry)
  {
    hide Pruned;
    if e.Issue? { PrunedKeeps(p, b, e.at, tok); }
  }

  lemma AbsentApply(p: Policy, b: Book, e: Event, tok: string)
    requires b.expiry.Keys == b.created.Keys && tok !in b.expiry && !(e.Issue? && e.tok == tok)
    ensures tok !in Apply(p, b, e).expiry
  {
    hide Pruned;
    if e.Issue? { PrunedKeeps(p, b, e.at, tok); }
  }

  lemma {:induction false} NeverEmpty(p: Policy, es: seq<Event>, n: nat)
    requires History(es) && n <= |es|
    ensures "" !in Before(p, es, n).expiry
  {
    hide Apply;
    if n > 0 {
      NeverEmpty(p, es, n - 1);
      AbsentApply(p, Before(p, es, n - 1), es[n - 1], "");
    }
  }

  lemma {:induction false} RecordedStep(p: Policy, es: seq<Event>, i: nat, m: nat, n: nat, tok: string)
    requires History(es) && 0 < n <= |es| && Recorded(p, es, i, m, n - 1, tok)
    ensures var e := es[n - 1];
            var accepted := e.Use? && e.tok == tok && Answer(p, es, n - 1);
            && (tok in Before(p, es, n).expiry ==> Recorded(p, es, i, if accepted then n - 1 else m, n, tok))
            && (tok !in Before(p, es, n).expiry ==> (e.Revoke? && e.tok == tok) || Dead(p, es[i].at, es[m].at + p.ttl, e.at))
  {
    hide Before, Apply, Dead, Answer, LastTouch;
    var e := es[n - 1];
    assert !(e.Issue? && e.tok == tok);
    NextBefore(p, es, n, tok);
    NeverEmpty(p, es, n - 1);
    NextTouch(p, es, i, m, n, tok);
  }

  lemma NextBefore(p: Policy, es: seq<Event>, n: nat, tok: string)
    requires 0 < n <= |es| && tok in Before(p, es, n - 1).expiry && !(es[n - 1].Issue? && es[n - 1].tok == tok)
    ensures var e := es[n - 1]; var b := Before(p, es, n - 1); var r := Before(p, es, n);
            var accepted := e.Use? && e.tok == tok && Answer(p, es, n - 1);
            && (tok in r.expiry ==> r.created[tok] == b.created[tok] && r.expiry[tok] == if accepted then e.at + p.ttl else b.expiry[tok])
            && (tok !in r.expiry ==> !accepted && ((e.Revoke? && e.tok == tok) || Dead(p, b.created[tok], b.expiry[tok], e.at) || tok == ""))
            && (e.Revoke? && e.tok == tok ==> tok !in r.expiry)
  {
    hide Apply, Dead;
    HeldApply(p, Before(p, es, n - 1), es[n - 1], tok);
  }

  lemma {:induction false} NextTouch(p: Policy, es: seq<Event>, i: nat, m: nat, n: nat, tok: string)
    requires 0 < n <= |es| && LastTouch(p, es, i, m, n - 1, tok)
    ensures var e := es[n - 1]; var accepted := e.Use? && e.tok == tok && Answer(p, es, n - 1);
            LastTouch(p, es, i, if accepted then n - 1 else m, n, tok)
  {
    hide Answer;
  }

  /** In every history the maps say exactly this about a token: held, with its issue and
      last touch; or not held, and then it is revoked, never issued or past a limit. */
  lemma {:induction false} MapsFollowHistory(p: Policy, es: seq<Event>, n: nat, tok: string, now: int)
    requires History(es) && n <= |es| && (n > 0 ==> es[n - 1].at <= now)
    ensures tok in Before(p, es, n).expiry ==> exists i: nat, m: nat :: Recorded(p, es, i, m, n, tok)
    ensures tok !in Before(p, es, n).expiry ==> Finished(p, es, n, tok, now)
    decreases n
  {
    if n > 0 {
      var e := es[n - 1];
      MapsFollowHistory(p, es, n - 1, tok, e.at);
      if tok in Before(p, es, n - 1).expiry {
        var i: nat, m: nat :| Recorded(p, es, i, m, n - 1, tok);
        RecordedStep(p, es, i, m, n, tok);
        if tok !in Before(p, es, n).expiry { FinishedFromLast(p, es, i, m, n, tok, now); }
      } else {
        AbsentStep(p, es, n, tok, now);
      }
    }
  }

  lemma FinishedFromLast(p: Policy, es: seq<Event>, i: nat, m: nat, n: nat, tok: string, now: int)
    requires History(es) && 0 < n <= |es| && es[n - 1].at <= now
    requires Stands(es, i, n - 1, tok) && LastTouch(p, es, i, m, n - 1, tok)
    requires (es[n - 1].Revoke? && es[n - 1].tok == tok) || Dead(p, es[i].at, es[m].at + p.ttl, es[n - 1].at)
    requires !(es[n - 1].Use? && es[n - 1].tok == tok && Answer(p, es, n - 1))
    ensures Finished(p, es, n, tok, now)
  {
    forall i': nat, m': nat | Stands(es, i', n, tok) && Touch(p, es, i', m', tok) && m' < n
      ensures Dead(p, es[i'].at, es[m'].at + p.ttl, now)
    {
      assert es[i'].Issue? && es[i].Issue? && i' == i;
      assert m' != n - 1 || n - 1 == i;
      assert m' <= m;
    }
  }

  lemma AbsentStep(p: Policy, es: seq<Event>, n: nat, tok: string, now: int)
    requires History(es) && 0 < n <= |es| && es[n - 1].at <= now
    requires tok !in Before(p, es, n - 1).expiry && Finished(p, es, n - 1, tok, es[n - 1].at)
    ensures tok in Before(p, es, n).expiry ==> exists i: nat, m: nat :: Recorded(p, es, i, m, n, tok)
    ensures tok !in Before(p, es, n).expiry ==> Finished(p, es, n, tok, now)
  {
    if es[n - 1].Issue? && es[n - 1].tok == tok {
      hide Dead, Pruned, Accepts;
      assert Recorded(p, es, n - 1, n - 1, n, tok);
    } else {
      hide Pruned, Accepts, Finished;
      AbsentApply(p, Before(p, es, n - 1), es[n - 1], tok);
      StillFinished(p, es, n, tok, now);
    }
  }

  lemma StillFinished(p: Policy, es: seq<Event>, n: nat, tok: string, now: int)
    requires History(es) && 0 < n <= |es| && es[n - 1].at <= now
    requires tok !in Before(p, es, n - 1).expiry && Finished(p, es, n - 1, tok, es[n - 1].at)
    requires !(es[n - 1].Issue? && es[n - 1].tok == tok)
    ensures Finished(p, es, n, tok, now)
  {
    hide Apply, Pruned;
    var e := es[n - 1];
    forall i: nat, m: nat | Stands(es, i, n, tok) && Touch(p, es, i, m, tok) && m < n
      ensures Dead(p, es[i].at, es[m].at + p.ttl, now)
    {
      assert Stands(es, i, n - 1, tok);
      assert !(e.Use? && e.tok == tok && Answer(p, es, n - 1));
      assert m < n - 1;
      assert Dead(p, es[i].at, es[m].at + p.ttl, e.at);
    }
  }

  ghost predicate Supports(p: Policy, es: seq<Event>, i: nat, m: nat, n: nat)
    requires n < |es|
  {
    && Stands(es, i, n, es[n].tok) && Touch(p, es, i, m, es[n].tok) && m < n
    && es[n].at - es[i].at < p.maxLife && es[n].at <= es[m].at + p.ttl
  }

  /** Dead tokens do not pile up: when one more is issued while over 4096 are held, the others
      held from then on are just those within both limits. */
  lemma PruneBounds(p: Policy, b: Book, tok: string, now: int, t: string)
    requires b.expiry.Keys == b.created.Keys && |b.expiry| > 4096 && t != tok
    ensures var r := Apply(p, b, Issue(tok, now));
            && (t in r.expiry <==> t in b.expiry && now - b.created[t] < p.maxLife && now <= b.expiry[t])
            && (t in r.expiry ==> r.expiry[t] == b.expiry[t] && r.created[t] == b.created[t])
  {
  }

  /** Short of that nothing is pruned. */
  lemma FewAreKept(p: Policy, b: Book, tok: string, now: int)
    requires b.expiry.Keys == b.created.Keys && |b.expiry| <= 4096
    ensures Apply(p, b, Issue(tok, now)) == Book(b.expiry[tok := now + p.ttl], b.created[tok := now])
  {
  }

  /** And one that is refused on use is forgotten. */
  lemma RefusedIsForgotten(p: Policy, b: Book, tok: string, now: int)
    requires b.expiry.Keys == b.created.Keys && tok != "" && !Accepts(p, b, tok, now)
    ensures var r := Apply(p, b, Use(tok, now)); tok !in r.expiry && tok !in r.created
  {
  }

  /** A token is valid exactly when it was issued and not revoked, its lifetime is not
      over, and its issue or some use answered yes is at most one ttl ago. Lazy deletion
      and pruning are not observable. */
  lemma ValidExactlyWhen(p: Policy, es: seq<Event>, n: nat)
    requires History(es) && n < |es| && es[n].Use?
    ensures Answer(p, es, n) <==> exists i: nat, m: nat :: Supports(p, es, i, m, n)
  {
    var tok := es[n].tok;
    MapsFollowHistory(p, es, n, tok, es[n].at);
    if Answer(p, es, n) {
      var i: nat, m: nat :| Recorded(p, es, i, m, n, tok);
      assert Supports(p, es, i, m, n);
    }
    if i: nat, m: nat :| Supports(p, es, i, m, n) {
      assert tok in Before(p, es, n).expiry;
      var i': nat, m': nat :| Recorded(p, es, i', m', n, tok);
      assert es[i].Issue? && es[i'].Issue? && i' == i;
      assert m <= m';
    }
  }

  /** A token refused once after its issue is refused ever after. */
  lemma {:induction false} DeadStaysDead(p: Policy, es: seq<Event>, n: nat, k: nat, tok: string)
    requires History(es) && n < k <= |es| && es[n] == Use(tok, es[n].at) && !Answer(p, es, n)
    requires exists i :: 0 <= i < n && es[i].Issue? && es[i].tok == tok
    ensures tok !in Before(p, es, k).expiry
    ensures k < |es| && es[k].Use? && es[k].tok == tok ==> !Answer(p, es, k)
    decreases k
  {
    hide Pruned, Dead;
    var i :| 0 <= i < n && es[i].Issue? && es[i].tok == tok;
    if k > n + 1 {
      DeadStaysDead(p, es, n, k - 1, tok);
      AbsentApply(p, Before(p, es, k - 1), es[k - 1], tok);
    }
  }

  // ---------------------------------------------------------------- the object

  class Manager {
    const ttl: int
    const maxLife: int
    var expiry: map<string, int>
    var created: map<string, int>

    ghost predicate Valid()
      reads this
    {
      expiry.Keys == created.Keys
    }

    constructor (ttl: int, maxLife: int)
      ensures this.ttl == ttl && this.maxLife == maxLife && Valid() && Book(expiry, created) == EMPTY
    {
      this.ttl, this.maxLife, expiry, created := ttl, maxLife, map[], map[];
    }

    method IssueToken(tok: string, now: int)
      requires Valid()
      modifies this
      ensures Valid() && Book(expiry, created) == Apply(Policy(ttl, maxLife), old(Book(expiry, created)), Issue(tok, now))
    {
      Prune(now);
      expiry := expiry[tok := now + ttl];
      created := created[tok := now];
    }

    method Prune(now: int)
      requires Valid()
      modifies this
      ensures Valid() && Book(expiry, created) == Pruned(Policy(ttl, maxLife), old(Book(expiry, created)), now)
    {
      ghost var was := Book(expiry, created);
      ghost var p := Policy(ttl, maxLife);
      if |expiry| > PRUNE_THRESHOLD {
        var todo := created.Keys;
        while todo != {}
          invariant expiry.Keys == created.Keys && todo <= created.Keys <= was.created.Keys
          invariant forall k :: k in created ==>
            created[k] == was.created[k] && expiry[k] == was.expiry[k] && (k in todo || !Doomed(p, was, k, now))
          invariant forall k :: k in was.created && !Doomed(p, was, k, now) ==> k in created
          decreases |todo|
        {
          var k :| k in todo;
          if now - created[k] >= maxLife || now > expiry[k] {
            expiry := expiry - {k};
            created := created - {k};
          }
          todo := todo - {k};
        }
        assert Book(expiry, created) == Pruned(p, was, now);
      }
    }

    method IsValid(tok: string, now: int) returns (ok: bool)
      requires Valid()
      modifies this
      ensures Valid() && ok == Accepts(Policy(ttl, maxLife), old(Book(expiry, created)), tok, now)
      ensures Book(expiry, created) == Apply(Policy(ttl, maxLife), old(Book(expiry, created)), Use(tok, now))
    {
      if tok == "" { return false; }
      if tok !in expiry {
        assert expiry - {tok} == expiry && created - {tok} == created;
        return false;
      }
      if now - created[tok] >= maxLife || now > expiry[tok] {
        expiry := expiry - {tok};
        created := created - {tok};
        return false;
      }
      expiry := expiry[tok := now + ttl];
      return true;
    }

    method RevokeToken(tok: string)
      requires Valid()
      modifies this
      ensures Valid() && Book(expiry, created) == Drop(old(Book(expiry, created)), tok)
    {
      expiry := expiry - {tok};
      created := created - {tok};
    }
  }
}
