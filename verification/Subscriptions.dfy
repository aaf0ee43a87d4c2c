/** The broadcast worker's subscription tables: two maps that stand for one relation. */
module Subscriptions {
  import opened Optional

  type Session = nat
  type Product = string

  datatype Command =
    | AddSession(session: Session)
    | RemoveSession(session: Session)
    | Subscribe(session: Session, product: Product)
    | Unsubscribe(session: Session, product: Product)
    | Broadcast(product: Product, message: string)
    | InfoUpdate(product: Product, info: string)

  datatype Tables = Tables(sessions: map<Session, set<Product>>, products: map<Product, set<Session>>)

  datatype Delivery = Delivery(session: Session, message: string)

  // ---- what each command does to the tables ----

  /** A session taken off one product's list; a list that becomes empty is dropped. */
  function Without(products: map<Product, set<Session>>, s: Session, p: Product): map<Product, set<Session>> {
    if p !in products then products
    else if products[p] - {s} == {} then products - {p}
    else products[p := products[p] - {s}]
  }

  function WithoutAll(products: map<Product, set<Session>>, s: Session, ps: set<Product>): map<Product, set<Session>> {
    map p | p in products && !(p in ps && products[p] - {s} == {}) :: if p in ps then products[p] - {s} else products[p]
  }

  function Apply(t: Tables, c: Command): Tables {
    match c
    case AddSession(s) => t.(sessions := t.sessions[s := {}])
    case RemoveSession(s) =>
      if s in t.sessions then Tables(t.sessions - {s}, WithoutAll(t.products, s, t.sessions[s])) else t
    case Subscribe(s, p) =>
      Tables(t.sessions[s := (if s in t.sessions then t.sessions[s] else {}) + {p}],
             t.products[p := (if p in t.products then t.products[p] else {}) + {s}])
    case Unsubscribe(s, p) =>
      Tables(if s in t.sessions then t.sessions[s := t.sessions[s] - {p}] else t.sessions, Without(t.products, s, p))
    case _ => t
  }

  function ApplyAll(t: Tables, commands: seq<Command>): Tables {
    if |commands| == 0 then t else Apply(ApplyAll(t, commands[..|commands| - 1]), commands[|commands| - 1])
  }

  // ---- the one relation they stand for ----

  predicate Holds(t: Tables, s: Session, p: Product) {
    s in t.sessions && p in t.sessions[s]
  }

  /** The tables are inverse to each other, and no product is kept without a session. */
  ghost predicate Consistent(t: Tables) {
    && (forall s, p :: Holds(t, s, p) <==> Listed(t, s, p))
    && (forall p :: p in t.products ==> t.products[p] != {})
  }

  predicate Listed(t: Tables, s: Session, p: Product) {
    p in t.products && s in t.products[p]
  }

  /** Who is subscribed to what after a sequence of commands, read off the commands alone. */
  ghost predicate Subscribed(commands: seq<Command>, s: Session, p: Product) {
    |commands| > 0 &&
    var before := Subscribed(commands[..|commands| - 1], s, p);
    match commands[|commands| - 1]
    case Subscribe(s', p') => (s' == s && p' == p) || before
    case Unsubscribe(s', p') => !(s' == s && p' == p) && before
    case RemoveSession(s') => s' != s && before
    case _ => before
  }

  /** A session is added before it first subscribes, and not again. */
  ghost predicate AddedBeforeSubscribing(commands: seq<Command>) {
    forall i, j :: 0 <= i < j < |commands| && commands[i].Subscribe? ==> commands[j] != AddSession(commands[i].session)
  }

  /** Adding keeps the tables consistent exactly when the session holds no product: it starts the
      session afresh in one table and leaves it in the other. */
  lemma AddKeepsConsistentIff(t: Tables, s: Session)
    requires Consistent(t)
    ensures Consistent(Apply(t, AddSession(s))) <==> s !in t.sessions || t.sessions[s] == {}
  {
    var t' := Apply(t, AddSession(s));
    if s in t.sessions && t.sessions[s] != {} {
      var p :| p in t.sessions[s];
      assert Holds(t, s, p) && Listed(t', s, p) && !Holds(t', s, p);
    } else {
      forall x, p
        ensures Holds(t', x, p) <==> Listed(t', x, p)
      {
        assert Holds(t, x, p) <==> Listed(t, x, p);
      }
    }
  }

  lemma SubscribeConsistent(t: Tables, s: Session, p: Product)
    requires Consistent(t)
    ensures Consistent(Apply(t, Subscribe(s, p)))
  {
    var t' := Apply(t, Subscribe(s, p));
    forall x, q
      ensures Holds(t', x, q) <==> Listed(t', x, q)
    {
      assert Holds(t, x, q) <==> Listed(t, x, q);
    }
  }

  lemma UnsubscribeConsistent(t: Tables, s: Session, p: Product)
    requires Consistent(t)
    ensures Consistent(Apply(t, Unsubscribe(s, p)))
  {
    var t' := Apply(t, Unsubscribe(s, p));
    forall x, q
      ensures Holds(t', x, q) <==> Listed(t', x, q)
    {
      assert p in t.products ==> (x in t.products[p] - {s} <==> x in t.products[p] && x != s);
      assert Holds(t, x, q) <==> Listed(t, x, q);
    }
  }

  lemma RemoveConsistent(t: Tables, s: Session)
    requires Consistent(t)
    ensures Consistent(Apply(t, RemoveSession(s)))
  {
    var t' := Apply(t, RemoveSession(s));
    forall x, q
      ensures Holds(t', x, q) <==> Listed(t', x, q)
    {
      assert Holds(t, x, q) <==> Listed(t, x, q);
      assert Holds(t, s, q) <==> Listed(t, s, q);
    }
  }

  /** Every command keeps the tables consistent, but for adding a session that holds a product. */
  lemma ApplyConsistent(t: Tables, c: Command)
    requires Consistent(t) && (c.AddSession? && c.session in t.sessions ==> t.sessions[c.session] == {})
    ensures Consistent(Apply(t, c))
  {
    hide Consistent;
    match c
    case AddSession(s) => AddKeepsConsistentIff(t, s);
    case RemoveSession(s) => RemoveConsistent(t, s);
    case Subscribe(s, p) => SubscribeConsistent(t, s, p);
    case Unsubscribe(s, p) => UnsubscribeConsistent(t, s, p);
    case _ =>
  }

  ghost predicate Represents(t: Tables, commands: seq<Command>) {
    forall s, p :: Holds(t, s, p) <==> Subscribed(commands, s, p)
  }

  lemma {:induction false} NeverSubscribed(commands: seq<Command>, s: Session, p: Product)
    requires forall i :: 0 <= i < |commands| ==> commands[i] != Subscribe(s, p)
    ensures !Subscribed(commands, s, p)
  {
    if |commands| > 0 {
      NeverSubscribed(commands[..|commands| - 1], s, p);
    }
  }

  /** After any commands in which each session is added before it subscribes, the tables are
      inverse to each other and represent exactly the subscriptions in force. */
  lemma {:induction false} TablesRefineRelation(commands: seq<Command>)
    requires AddedBeforeSubscribing(commands)
    ensures var t := ApplyAll(Tables(map[], map[]), commands); Consistent(t) && Represents(t, commands)
  {
    if |commands| > 0 {
      var n := |commands| - 1;
      var before := commands[..n];
      var t := ApplyAll(Tables(map[], map[]), before);
      assert AddedBeforeSubscribing(before) by {
        forall i, j | 0 <= i < j < |before| && before[i].Subscribe?
          ensures before[j] != AddSession(before[i].session)
        {
          assert commands[i] == before[i] && commands[j] == before[j];
        }
      }
      TablesRefineRelation(before);
      if commands[n].AddSession? {
        AddedHoldsNothing(t, commands);
      }
      ApplyConsistent(t, commands[n]);
      RepresentsNext(t, commands);
    }
  }

  lemma AddedHoldsNothing(t: Tables, commands: seq<Command>)
    requires |commands| > 0 && AddedBeforeSubscribing(commands) && commands[|commands| - 1].AddSession?
    requires Represents(t, commands[..|commands| - 1])
    ensures var s := commands[|commands| - 1].session; s in t.sessions ==> t.sessions[s] == {}
  {
    var n := |commands| - 1;
    var s := commands[n].session;
    forall p
      ensures !Holds(t, s, p)
    {
      forall i | 0 <= i < n
        ensures commands[..n][i] != Subscribe(s, p)
      {
        assert commands[i].Subscribe? ==> commands[n] != AddSession(commands[i].session);
      }
      NeverSubscribed(commands[..n], s, p);
    }
    if s in t.sessions {
      assert forall p :: p in t.sessions[s] ==> Holds(t, s, p);
    }
  }

  lemma RepresentsNext(t: Tables, commands: seq<Command>)
    requires |commands| > 0 && Represents(t, commands[..|commands| - 1])
    requires var c := commands[|commands| - 1]; c.AddSession? && c.session in t.sessions ==> t.sessions[c.session] == {}
    ensures Represents(Apply(t, commands[|commands| - 1]), commands)
  {
    var n := |commands| - 1;
    var t' := Apply(t, commands[n]);
    forall s, p
      ensures Holds(t', s, p) <==> Subscribed(commands, s, p)
    {
      assert Holds(t, s, p) <==> Subscribed(commands[..n], s, p);
    }
  }

  // ---- the worker ----

  class Worker {
    var sessionToProducts: map<Session, set<Product>>
    var productToSessions: map<Product, set<Session>>
    var productInfos: map<Product, string>
    // what was handed to the sessions' send_message, and the products the hook was told about
    var sent: seq<Delivery>
    var announced: seq<Product>

    constructor ()
      ensures View() == Tables(map[], map[]) && productInfos == map[] && sent == [] && announced == []
    {
      sessionToProducts, productToSessions, productInfos, sent, announced := map[], map[], map[], [], [];
    }

    function View(): Tables
      reads this
    {
      Tables(sessionToProducts, productToSessions)
    }

    method Detach(s: Session, p: Product)
      modifies this`productToSessions
      ensures productToSessions == Without(old(productToSessions), s, p)
    {
      if p in productToSessions {
        productToSessions := productToSessions[p := productToSessions[p] - {s}];
        if productToSessions[p] == {} { productToSessions := productToSessions - {p}; }
      }
    }

    method OnRemove(s: Session)
      modifies this`sessionToProducts, this`productToSessions
      ensures View() == Apply(old(View()), RemoveSession(s))
    {
      if s in sessionToProducts {
        var mine := sessionToProducts[s];
        var todo := mine;
        WithoutNone(productToSessions, s, mine - todo);
        while todo != {}
          invariant todo <= mine && sessionToProducts == old(sessionToProducts)
          invariant productToSessions == WithoutAll(old(productToSessions), s, mine - todo)
          decreases |todo|
        {
          var p :| p in todo;
          WithoutMore(old(productToSessions), s, mine - todo, p);
          Detach(s, p);
          assert mine - (todo - {p}) == mine - todo + {p};
          todo := todo - {p};
        }
        assert mine - todo == mine;
        sessionToProducts := sessionToProducts - {s};
      }
    }

    /** The subscriber gets the retained product info, if there is any; the owner is told. */
    method OnSubscribe(s: Session, p: Product)
      modifies this`sessionToProducts, this`productToSessions, this`sent, this`announced
      ensures View() == Apply(old(View()), Subscribe(s, p))
      ensures sent == old(sent) + if p in productInfos then [Delivery(s, productInfos[p])] else []
      ensures announced == old(announced) + [p]
    {
      if s !in sessionToProducts { sessionToProducts := sessionToProducts[s := {}]; }
      sessionToProducts := sessionToProducts[s := sessionToProducts[s] + {p}];
      assert sessionToProducts == Apply(old(View()), Subscribe(s, p)).sessions;
      if p !in productToSessions { productToSessions := productToSessions[p := {}]; }
      productToSessions := productToSessions[p := productToSessions[p] + {s}];
      assert productToSessions == Apply(old(View()), Subscribe(s, p)).products;
      if p in productInfos { sent := sent + [Delivery(s, productInfos[p])]; }
      announced := announced + [p];
    }

    method OnUnsubscribe(s: Session, p: Product)
      modifies this`sessionToProducts, this`productToSessions
      ensures View() == Apply(old(View()), Unsubscribe(s, p))
    {
      if s in sessionToProducts { sessionToProducts := sessionToProducts[s := sessionToProducts[s] - {p}]; }
      Detach(s, p);
    }

    /** The message reaches every session listed for the product, each once, and no other. */
    method OnBroadcast(p: Product, message: string)
      modifies this`sent
      ensures |old(sent)| <= |sent| && sent[..|old(sent)|] == old(sent)
      ensures ReachesExactly(View(), p, message, sent[|old(sent)|..])
    {
      if p !in productToSessions {
        assert sent[|sent|..] == [];
        return;
      }
      var todo := productToSessions[p];
      ghost var news: seq<Delivery> := [];
      assert sent + [] == sent;
      while todo != {}
        invariant todo <= productToSessions[p]
        invariant sent == old(sent) + news
        invariant SentTo(productToSessions[p] - todo, message, news)
        decreases |todo|
      {
        var s :| s in todo;
        SentToMore(productToSessions[p] - todo, message, news, s);
        assert productToSessions[p] - (todo - {s}) == productToSessions[p] - todo + {s};
        sent := sent + [Delivery(s, message)];
        news := news + [Delivery(s, message)];
        todo := todo - {s};
      }
      assert productToSessions[p] - todo == productToSessions[p];
      assert sent[|old(sent)|..] == news;
    }

    method Handle(c: Command)
      modifies this
      ensures View() == Apply(old(View()), c)
      ensures productInfos == if c.InfoUpdate? then old(productInfos)[c.product := c.info] else old(productInfos)
      ensures |old(sent)| <= |sent| && sent[..|old(sent)|] == old(sent)
      ensures c.Broadcast? ==> ReachesExactly(old(View()), c.product, c.message, sent[|old(sent)|..])
      ensures c.Subscribe? ==>
        sent == old(sent) + if c.product in productInfos then [Delivery(c.session, productInfos[c.product])] else []
      ensures !c.Subscribe? && !c.Broadcast? ==> sent == old(sent)
      ensures announced == old(announced) + if c.Subscribe? then [c.product] else []
    {
      assert announced == old(announced) + [];
      match c {
        case AddSession(s) => sessionToProducts := sessionToProducts[s := {}];
        case RemoveSession(s) => OnRemove(s);
        case Subscribe(s, p) => OnSubscribe(s, p);
        case Unsubscribe(s, p) => OnUnsubscribe(s, p);
        case Broadcast(p, message) => OnBroadcast(p, message);
        case InfoUpdate(p, info) => productInfos := productInfos[p := info];
      }
    }

    /** The worker's loop over its queue, from the start: its tables are those of the commands, what
        it retains of a product is the latest info, and the owner was told of every subscription. */
    method Work(queue: seq<Command>)
      requires View() == Tables(map[], map[]) && productInfos == map[] && announced == []
      modifies this
      ensures View() == ApplyAll(Tables(map[], map[]), queue)
      ensures Retains(productInfos, queue) && announced == Announced(queue)
    {
      for i := 0 to |queue|
        invariant View() == ApplyAll(Tables(map[], map[]), queue[..i])
        invariant Retains(productInfos, queue[..i]) && announced == Announced(queue[..i])
      {
        assert queue[..i + 1][..i] == queue[..i];
        Handle(queue[i]);
      }
      assert queue[..|queue|] == queue;
    }
  }

  /** The latest info sent for a product. */
  function LastInfo(commands: seq<Command>, p: Product): Option<string> {
    if |commands| == 0 then None
    else
      var last := commands[|commands| - 1];
      if last.InfoUpdate? && last.product == p then Some(last.info) else LastInfo(commands[..|commands| - 1], p)
  }

  ghost predicate Retains(infos: map<Product, string>, commands: seq<Command>) {
    forall p :: (if p in infos then Some(infos[p]) else None) == LastInfo(commands, p)
  }

  function Announced(commands: seq<Command>): seq<Product> {
    if |commands| == 0 then []
    else
      var last := commands[|commands| - 1];
      Announced(commands[..|commands| - 1]) + if last.Subscribe? then [last.product] else []
  }

  /** `news` hands `message` to each of `sessions` once. */
  ghost predicate SentTo(sessions: set<Session>, message: string, news: seq<Delivery>) {
    && (forall i :: 0 <= i < |news| ==> news[i].message == message && news[i].session in sessions)
    && (forall i, j :: 0 <= i < j < |news| ==> news[i].session != news[j].session)
    && (forall s :: s in sessions ==> exists i :: 0 <= i < |news| && news[i].session == s)
  }

  ghost predicate ReachesExactly(t: Tables, p: Product, message: string, news: seq<Delivery>) {
    SentTo(if p in t.products then t.products[p] else {}, message, news)
  }

  /** With consistent tables, the sessions a broadcast reaches are the subscribed ones. */
  lemma BroadcastReachesSubscribers(t: Tables, p: Product, message: string, news: seq<Delivery>)
    requires Consistent(t) && ReachesExactly(t, p, message, news)
    ensures forall s :: Holds(t, s, p) <==> exists i :: 0 <= i < |news| && news[i] == Delivery(s, message)
  {
    forall s
      ensures Holds(t, s, p) <==> exists i :: 0 <= i < |news| && news[i] == Delivery(s, message)
    {
      assert Holds(t, s, p) <==> Listed(t, s, p);
    }
  }

  lemma SentToMore(sessions: set<Session>, message: string, news: seq<Delivery>, s: Session)
    requires SentTo(sessions, message, news) && s !in sessions
    ensures SentTo(sessions + {s}, message, news + [Delivery(s, message)])
  {
    var more := news + [Delivery(s, message)];
    forall x | x in sessions + {s}
      ensures exists i :: 0 <= i < |more| && more[i].session == x
    {
      if x == s {
        assert more[|news|].session == s;
      } else {
        var i :| 0 <= i < |news| && news[i].session == x;
        assert more[i].session == x;
      }
    }
  }

  lemma WithoutNone(products: map<Product, set<Session>>, s: Session, ps: set<Product>)
    requires ps == {}
    ensures WithoutAll(products, s, ps) == products
  {
  }

  lemma WithoutMore(products: map<Product, set<Session>>, s: Session, ps: set<Product>, p: Product)
    requires p !in ps
    ensures Without(WithoutAll(products, s, ps), s, p) == WithoutAll(products, s, ps + {p})
  {
  }
}
