/**
 The web client's event streams: one connection per URL, shared by counting its subscribers. A browser
 may close a connection for good at any time; the next subscriber to that URL then gets a new one
 while the old one's subscribers are still counted on the old.
 */
module SharedStreams {
  import opened Prelude

  datatype Url = Url(text: string)

  /** A stream together with the browser's connection behind it, which nothing else refers to. */
  class SharedStream {
    const url: Url
    /** The connection is closed for good. */
    var closed: bool
    /** The client closed it, rather than the browser. */
    ghost var byClient: bool
    var refs: int
    /** The last payload of each event type, for late subscribers. */
    var last: map<string, string>
    /** The subscriptions that have not been cleaned up. */
    ghost var users: set<Subscription>

    constructor (url: Url)
      ensures this.url == url && !closed && !byClient && refs == 0 && last == map[] && users == {}
    {
      this.url := url;
      closed, byClient, refs, last, users := false, false, 0, map[], {};
    }
  }

  class Subscription {
    const stream: SharedStream
    const kind: string
    var closed: bool

    constructor (stream: SharedStream, kind: string)
      ensures this.stream == stream && this.kind == kind && !closed
    {
      this.stream, this.kind, closed := stream, kind, false;
    }
  }

  function Lookup(last: map<string, string>, kind: string): Option<string> {
    if kind in last then Some(last[kind]) else None
  }

  predicate InMap(streams: map<Url, SharedStream>, st: SharedStream) {
    st.url in streams && streams[st.url] == st
  }

  class Client {
    var streams: map<Url, SharedStream>
    /** Every stream and every subscription there has ever been. */
    ghost var made: set<SharedStream>
    ghost var subs: set<Subscription>

    /** A stream counts its uncleaned subscriptions, also once it has been replaced in the map. */
    ghost predicate Counted(st: SharedStream)
      reads this`subs, st`refs, st`users, subs
    {
      && st.refs == |st.users|
      && forall s :: s in st.users ==> s in subs && s.stream == st && !s.closed
    }

    ghost predicate Enrolled(s: Subscription)
      reads this`made, s, s.stream`users
    {
      s.stream in made && (s.closed || s in s.stream.users)
    }

    /** The client closes a connection exactly when its last subscriber goes, and the map leads to every connection that is open. */
    ghost predicate Kept(st: SharedStream)
      reads this`streams, st
    {
      && (st.byClient <==> st.refs == 0)
      && (st.byClient ==> st.closed)
      && (!st.closed ==> InMap(streams, st))
    }

    /** The map leads only to streams in use, each under its own URL. */
    ghost predicate Mapped(pending: set<SharedStream>)
      reads this, made
    {
      forall url :: url in streams ==> streams[url] in made && streams[url].url == url && (streams[url] in pending || streams[url].refs > 0)
    }

    /** The invariant, but for streams in `pending`, which may be counting nobody. */
    ghost predicate Sound(pending: set<SharedStream>)
      reads this, made, subs
    {
      && (forall st :: st in made ==> Counted(st))
      && (forall s :: s in subs ==> s.stream in made && Enrolled(s))
      && (forall st :: st in made && st !in pending ==> Kept(st))
      && Mapped(pending)
    }

    ghost predicate Valid()
      reads this, made, subs
    {
      Sound({})
    }

    constructor ()
      ensures Valid() && streams == map[] && made == {} && subs == {}
    {
      streams, made, subs := map[], {}, {};
    }

    /** At most one open connection per URL, over all the streams there have ever been. */
    lemma OneConnectionPerUrl(a: SharedStream, b: SharedStream)
      requires Valid() && a in made && b in made && a != b
      ensures a.url == b.url ==> a.closed || b.closed
    {
      assert Kept(a) && Kept(b);
    }

    /** The client has closed a stream exactly when it has no subscriber left; an open one has some, and the map leads to it. */
    lemma OpenIsInUse(st: SharedStream)
      requires Valid() && st in made
      ensures st.byClient <==> forall s :: s in subs && s.stream == st ==> s.closed
      ensures !st.closed ==> InMap(streams, st) && exists s :: s in subs && s.stream == st && !s.closed
    {
      assert Counted(st) && Kept(st);
      assert forall s :: s in subs ==> Enrolled(s);
      if st.refs == 0 {
        assert st.users == {};
      } else {
        assert st.users != {};
        var s :| s in st.users;
      }
    }

    /** The URL's stream if its connection is not closed for good, and a new one in its place otherwise. */
    method OpenStream(url: Url) returns (st: SharedStream)
      requires Valid()
      modifies this`streams, this`made
      ensures Sound({st}) && InMap(streams, st) && st in made && !st.closed && !st.byClient && st.url == url
      ensures streams == old(streams)[url := st] && made == old(made) + {st}
      ensures if url in old(streams) && !old(streams[url].closed) then st == old(streams)[url]
              else fresh(st) && st.refs == 0 && st.last == map[] && st.users == {}
    {
      if url in streams && !streams[url].closed {
        st := streams[url];
        assert Kept(st);
        return;
      }
      st := new SharedStream(url);
      streams := streams[url := st];
      made := made + {st};
    }

    /** Count one more subscriber. */
    method Enrol(st: SharedStream, sub: Subscription)
      requires Sound({st}) && st in made && InMap(streams, st) && !st.byClient && !st.closed
      requires sub !in subs && sub.stream == st && !sub.closed
      modifies this`subs, st`refs, st`users
      ensures Valid() && subs == old(subs) + {sub} && st.users == old(st.users) + {sub}
    {
      assert Counted(st);
      st.refs := st.refs + 1;
      st.users := st.users + {sub};
      subs := subs + {sub};
      forall other | other in made ensures Counted(other) {
        assert old(Counted(other));
      }
      forall s | s in subs ensures s.stream in made && Enrolled(s) {
        assert s != sub ==> old(Enrolled(s));
      }
      forall other | other in made ensures Kept(other) {
        assert other != st ==> old(Kept(other));
      }
      assert old(Mapped({st}));
    }

    /** A new subscriber of an open stream, and the last payload of its event type. */
    method Join(st: SharedStream, kind: string) returns (sub: Subscription, replay: Option<string>)
      requires Sound({st}) && st in made && InMap(streams, st) && !st.byClient && !st.closed
      modifies this`subs, st`refs, st`users
      ensures Valid() && fresh(sub) && !sub.closed && sub.kind == kind && sub.stream == st
      ensures subs == old(subs) + {sub} && st.users == old(st.users) + {sub}
      ensures replay == if kind in st.last then Some(st.last[kind]) else None
    {
      sub := new Subscription(st, kind);
      Enrol(st, sub);
      replay := Lookup(st.last, kind);
    }

    /** A new subscriber is counted on the URL's stream, and is owed the last payload of its event type. */
    method Subscribe(url: Url, kind: string) returns (sub: Subscription, replay: Option<string>)
      requires Valid()
      modifies this`streams, this`made, this`subs, made`refs, made`users
      ensures Valid() && fresh(sub) && !sub.closed && sub.kind == kind && sub.stream.url == url
      ensures streams == old(streams)[url := sub.stream] && subs == old(subs) + {sub} && made == old(made) + {sub.stream}
      ensures if url in old(streams) && !old(streams[url].closed)
              then sub.stream == old(streams)[url] && sub.stream.users == old(streams[url].users) + {sub}
                   && replay == (if kind in old(streams[url].last) then Some(old(streams[url].last[kind])) else None)
              else fresh(sub.stream) && sub.stream.users == {sub} && replay == None
      ensures forall st :: st in old(made) && st != sub.stream ==> st.users == old(st.users)
    {
      var st := OpenStream(url);
      sub, replay := Join(st, kind);
    }

    /** An event: its payload is remembered under its type. */
    method Receive(st: SharedStream, kind: string, data: string)
      requires Valid() && st in made
      modifies st`last
      ensures Valid() && st.last == old(st.last)[kind := data]
    {
      st.last := st.last[kind := data];
    }

    /** The browser gives up on a connection. */
    method BrowserCloses(st: SharedStream)
      requires Valid() && st in made
      modifies st`closed
      ensures Valid() && st.closed
    {
      st.closed := true;
    }

    /** Count one subscriber less. */
    method Leave(sub: Subscription)
      requires Valid() && sub in subs && !sub.closed
      modifies sub`closed, sub.stream`refs, sub.stream`users
      ensures Sound({sub.stream}) && sub.closed && sub.stream.users == old(sub.stream.users) - {sub}
    {
      var st := sub.stream;
      assert Enrolled(sub) && Counted(st);
      sub.closed := true;
      st.refs := st.refs - 1;
      st.users := st.users - {sub};
    }

    /** Nobody left: close the connection and take it out of the map, if it is still there. */
    method Retire(st: SharedStream)
      requires Sound({st}) && st in made && st.refs == 0
      modifies this`streams, st`closed, st`byClient
      ensures Valid() && st.closed && st.byClient
      ensures streams == if InMap(old(streams), st) then old(streams) - {st.url} else old(streams)
    {
      st.closed, st.byClient := true, true;
      if st.url in streams && streams[st.url] == st {
        streams := streams - {st.url};
      }
      forall other | other in made ensures Kept(other) {
        assert other != st ==> old(Kept(other));
      }
      forall other | other in made ensures Counted(other) {
        assert old(Counted(other));
      }
      assert old(Mapped({st}));
    }

    /** Cleaning up once releases the subscriber; again does nothing. */
    method Cleanup(sub: Subscription)
      requires Valid() && sub in subs
      modifies this`streams, sub`closed, sub.stream`refs, sub.stream`users, sub.stream`closed, sub.stream`byClient
      ensures Valid() && sub.closed
      ensures old(sub.closed) ==>
                streams == old(streams) && sub.stream.users == old(sub.stream.users) && sub.stream.closed == old(sub.stream.closed)
      ensures !old(sub.closed) ==>
                && sub.stream.users == old(sub.stream.users) - {sub}
                && sub.stream.closed == (old(sub.stream.closed) || sub.stream.refs == 0)
                && streams == if sub.stream.refs == 0 && InMap(old(streams), sub.stream) then old(streams) - {sub.stream.url} else old(streams)
    {
      if sub.closed {
        return;
      }
      var st := sub.stream;
      assert Enrolled(sub) && Kept(st) && Counted(st);
      Leave(sub);
      if st.refs == 0 {
        Retire(st);
      } else {
        assert Counted(st);
      }
    }
  }
}
