/** Discovery of metadata scope components: which modules must agree on where an
    attribute lives. Mutually recursive walks over a module graph that may have
    cycles, with visited marks that are reset in the middle of a walk. */
module MetadataScopes {

  datatype Mode = Read | Write | Update

  datatype Attribute = Attribute(name: string, size: int, mode: Mode)

  // The module graph as the walks see it: down lists the modules behind the
  // output gates, up those before the input gates, sources the modules that
  // have no input gates at all.
  datatype Graph<!M> = Graph(modules: set<M>, down: map<M, seq<M>>, up: map<M, seq<M>>, sources: set<M>,
                             attrs: map<M, map<string, Attribute>>)

  ghost predicate WellFormed<M(!new)>(g: Graph<M>) {
    && g.down.Keys == g.modules && g.up.Keys == g.modules && g.attrs.Keys == g.modules
    && (forall m, x :: m in g.modules && x in g.down[m] ==> x in g.modules)
    && (forall m, x :: m in g.modules && x in g.up[m] ==> x in g.modules)
    && (forall m, a :: m in g.modules && a in g.attrs[m] ==> g.attrs[m][a].name == a)
  }

  // Module m accesses attribute a in this mode.
  ghost predicate HasMode<M>(g: Graph<M>, m: M, a: string, mode: Mode) {
    m in g.attrs && a in g.attrs[m] && g.attrs[m][a].mode == mode
  }

  // To update an attribute is to read what is there, not to write it first.
  predicate Writes<M>(g: Graph<M>, m: M, a: string): (w: bool)
    ensures w <==> HasMode(g, m, a, Write)
  {
    m in g.attrs && a in g.attrs[m] && g.attrs[m][a].mode == Write
  }

  predicate Reads<M>(g: Graph<M>, m: M, a: string): (r: bool)
    ensures r <==> HasMode(g, m, a, Read) || HasMode(g, m, a, Update)
  {
    m in g.attrs && a in g.attrs[m] && g.attrs[m][a].mode != Write
  }

  ghost predicate Feeds<M>(g: Graph<M>, m: M, n: M) {
    (m in g.down && n in g.down[m]) || (n in g.up && m in g.up[n])
  }

  datatype Component<!M> = Component(attr: string, size: int, modules: set<M>, invalid: bool)

  // ---- why a module is in a component ----

  // A path inside the component, past no writer, that ends at a reader.
  ghost predicate Lead<M>(g: Graph<M>, a: string, c: set<M>, p: seq<M>) {
    && p != [] && (forall x :: x in p ==> x in c && !HasMode(g, x, a, Write))
    && (forall i :: 0 < i < |p| ==> Feeds(g, p[i - 1], p[i]))
    && (HasMode(g, p[|p| - 1], a, Read) || HasMode(g, p[|p| - 1], a, Update))
  }

  // The module leads to a reader, or writes directly in front of one that does.
  ghost predicate Needed<M(!new)>(g: Graph<M>, a: string, c: set<M>, m: M) {
    exists p :: Lead(g, a, c, p) && (m == p[0] || (HasMode(g, m, a, Write) && Feeds(g, m, p[0])))
  }

  // Reason enough to put m into the component.
  ghost predicate Warranted<M(!new)>(g: Graph<M>, a: string, c: set<M>, m: M) {
    || Reads(g, m, a)
    || exists n :: n in c && !Writes(g, n, a) && Feeds(g, m, n) && Needed(g, a, c, n)
  }

  lemma NeededGrows<M(!new)>(g: Graph<M>, a: string, c: set<M>, d: set<M>, m: M)
    requires c <= d && Needed(g, a, c, m)
    ensures Needed(g, a, d, m)
  {
    var p :| Lead(g, a, c, p) && (m == p[0] || (Writes(g, m, a) && Feeds(g, m, p[0])));
    assert Lead(g, a, d, p);
  }

  lemma WarrantedIsNeeded<M(!new)>(g: Graph<M>, a: string, c: set<M>, m: M)
    requires Warranted(g, a, c, m)
    ensures Needed(g, a, c + {m}, m)
  {
    if Reads(g, m, a) {
      assert Lead(g, a, c + {m}, [m]);
    } else {
      var n :| n in c && !Writes(g, n, a) && Feeds(g, m, n) && Needed(g, a, c, n);
      var p :| Lead(g, a, c, p) && n == p[0];
      assert Lead(g, a, c + {m}, p);
      if !Writes(g, m, a) {
        assert Lead(g, a, c + {m}, [m] + p);
      }
    }
  }

  // Everybody but the writer that started the component is needed in it, and it
  // is invalid only because of a member that has no inputs and does not write.
  ghost predicate Sound<M(!new)>(g: Graph<M>, c: Component<M>, start: M) {
    && (c.modules == {} || (start in c.modules && HasMode(g, start, c.attr, Write)))
    && (c.invalid ==> exists m :: m in c.modules && m in g.sources && !HasMode(g, m, c.attr, Write))
    && forall m :: m in c.modules ==> m in g.modules && (m == start || Needed(g, c.attr, c.modules, m))
  }

  lemma SoundGrows<M(!new)>(g: Graph<M>, c: Component<M>, start: M, m: M)
    requires Sound(g, c, start) && c.modules != {} && m in g.modules
    requires m == start || Warranted(g, c.attr, c.modules, m)
    ensures Sound(g, c.(modules := c.modules + {m}), start)
  {
    forall x | x in c.modules + {m} && x != start ensures Needed(g, c.attr, c.modules + {m}, x) {
      if x in c.modules {
        NeededGrows(g, c.attr, c.modules, c.modules + {m}, x);
      } else {
        WarrantedIsNeeded(g, c.attr, c.modules, m);
      }
    }
  }

  // ---- the walks ----

  // The state of the discovery: scope_components_, module_scopes_, the scope_id
  // of every attribute (-1 when not identified), and for each component the
  // writer it was started for.
  datatype State<!M> = State(comps: seq<Component<M>>, scopes: map<M, int>, ids: map<(M, string), int>, starts: seq<M>)

  ghost predicate Valid<M(!new)>(g: Graph<M>, s: State<M>) {
    && WellFormed(g) && s.scopes.Keys == g.modules && |s.starts| == |s.comps|
    && (forall m :: m in s.scopes ==> s.scopes[m] <= |s.comps|)
    && (forall m, a :: (m, a) in s.ids <==> m in g.modules && a in g.attrs[m])
    && (forall m, a :: (m, a) in s.ids && s.ids[(m, a)] != -1 ==> Belongs(s.comps, m, a, s.ids[(m, a)]))
    && (forall k :: 0 <= k < |s.comps| ==> Sound(g, s.comps[k], s.starts[k]))
  }

  // Module m was put into the k-th component, which is one for attribute a.
  ghost predicate Belongs<M>(comps: seq<Component<M>>, m: M, a: string, k: int) {
    1 <= k <= |comps| && comps[k - 1].attr == a && m in comps[k - 1].modules
  }

  // Writers of a that no component has yet.
  ghost function Unidentified<M>(g: Graph<M>, s: State<M>, a: string): set<M> {
    set m | m in g.modules && Writes(g, m, a) && (m, a) in s.ids && s.ids[(m, a)] == -1
  }

  // Other modules without a mark of the current component.
  ghost function Unmarked<M>(g: Graph<M>, s: State<M>, a: string): set<M> {
    set m | m in g.modules && !Writes(g, m, a) && m in s.scopes && s.scopes[m] != |s.comps|
  }

  // A walk for attribute a is under way.
  ghost predicate Walking<M(!new)>(g: Graph<M>, s: State<M>, a: string) {
    Valid(g, s) && s.comps != [] && Last(s).attr == a && Last(s).modules != {}
  }

  ghost function Last<M>(s: State<M>): Component<M>
    requires s.comps != []
  {
    s.comps[|s.comps| - 1]
  }

  ghost predicate Member<M(!new)>(s: State<M>, m: M) {
    s.comps != [] && m in Last(s).modules
  }

  // What a walk keeps: only the last component changes, by growing; nobody
  // loses its component; of the modules that do not write, none loses its mark.
  ghost predicate Walked<M(!new)>(g: Graph<M>, a: string, s: State<M>, t: State<M>) {
    && s.comps != [] && |t.comps| == |s.comps| && t.starts == s.starts
    && var n := |s.comps| - 1;
       && t.comps[..n] == s.comps[..n] && t.comps[n].attr == a
       && (s.comps[n].modules == {} || (s.comps[n].attr == a && t.comps[n].size == s.comps[n].size))
       && s.comps[n].modules <= t.comps[n].modules && (s.comps[n].invalid ==> t.comps[n].invalid)
       && s.ids.Keys == t.ids.Keys && (forall k :: k in s.ids && s.ids[k] != -1 ==> t.ids[k] != -1)
       && Unmarked(g, t, a) <= Unmarked(g, s, a)
  }

  lemma WalkedOn<M(!new)>(g: Graph<M>, a: string, s: State<M>, t: State<M>, u: State<M>)
    requires Walked(g, a, s, t) && Walked(g, a, t, u)
    ensures Walked(g, a, s, u)
  {
  }

  lemma WalkShrinks<M(!new)>(g: Graph<M>, a: string, s: State<M>, t: State<M>)
    requires Walked(g, a, s, t)
    ensures Unidentified(g, t, a) <= Unidentified(g, s, a) && Unmarked(g, t, a) <= Unmarked(g, s, a)
    ensures s.comps != [] && |t.comps| == |s.comps| && Last(s).modules <= Last(t).modules
    ensures Last(s).modules != {} ==> Last(t).size == Last(s).size
    ensures forall k :: k in s.ids && s.ids[k] != -1 ==> k in t.ids && t.ids[k] != -1
  {
  }

  lemma WalkedHere<M(!new)>(g: Graph<M>, a: string, s: State<M>)
    requires Walking(g, s, a)
    ensures Walked(g, a, s, s)
  {
  }

  // Module m may be added: it starts the component or has its reason.
  ghost predicate MayAdd<M(!new)>(g: Graph<M>, s: State<M>, a: string, m: M) {
    && Valid(g, s) && s.comps != [] && m in g.modules
    && if Last(s).modules == {} then m == s.starts[|s.comps| - 1] && Writes(g, m, a)
       else Last(s).attr == a && (m in Last(s).modules || Warranted(g, a, Last(s).modules, m))
  }

  function Added<M(!new)>(c: Component<M>, m: M, attr: Attribute): Component<M> {
    if m in c.modules then c
    else if c.modules == {} then Component(attr.name, attr.size, {m}, c.invalid)
    else c.(modules := c.modules + {m})
  }

  ghost function AddedTo<M(!new)>(s: State<M>, m: M, attr: Attribute): State<M>
    requires s.comps != []
  {
    s.(comps := s.comps[|s.comps| - 1 := Added(Last(s), m, attr)])
  }

  lemma AddKeeps<M(!new)>(g: Graph<M>, s: State<M>, m: M, attr: Attribute)
    requires MayAdd(g, s, attr.name, m)
    ensures var t := AddedTo(s, m, attr);
            Walking(g, t, attr.name) && Walked(g, attr.name, s, t) && m in Last(t).modules
  {
    hide Writes, Warranted, WellFormed;
    var n := |s.comps| - 1;
    var t := s.(comps := s.comps[n := Added(s.comps[n], m, attr)]);
    if m in Last(s).modules {
      assert t == s;
    } else {
      if Last(s).modules != {} { SoundGrows(g, Last(s), s.starts[n], m); }
      assert Sound(g, t.comps[n], s.starts[n]);
      hide Sound;
      forall x, b | (x, b) in s.ids && s.ids[(x, b)] != -1 ensures Belongs(t.comps, x, b, s.ids[(x, b)]) {
        assert Belongs(s.comps, x, b, s.ids[(x, b)]);
      }
    }
  }

  lemma MarkKeeps<M(!new)>(g: Graph<M>, a: string, s: State<M>, m: M)
    requires Walking(g, s, a) && m in g.modules
    ensures var t := Mark(s, m, |s.comps|);
            Walking(g, t, a) && Walked(g, a, s, t) && Unmarked(g, t, a) == Unmarked(g, s, a) - {m}
  {
    hide Sound, WellFormed, Belongs;
  }

  // A mark set since state s may be taken back.
  lemma UnmarkKeeps<M(!new)>(g: Graph<M>, a: string, s: State<M>, t: State<M>, m: M)
    requires Walking(g, t, a) && Walked(g, a, s, t) && m in g.modules && (Writes(g, m, a) || m in Unmarked(g, s, a))
    ensures var u := Mark(t, m, -1); Walking(g, u, a) && Walked(g, a, s, u)
  {
    hide Sound, WellFormed, Belongs;
  }

  lemma IdentifyKeeps<M(!new)>(g: Graph<M>, a: string, s: State<M>, m: M)
    requires Walking(g, s, a) && m in Last(s).modules && (m, a) in s.ids
    ensures var t := Identify(s, m, a);
            Walking(g, t, a) && Walked(g, a, s, t)
  {
    hide Sound, WellFormed;
  }

  lemma SoundAnyway<M(!new)>(g: Graph<M>, c: Component<M>, start: M, m: M)
    requires Sound(g, c, start) && m in c.modules && m in g.sources && !Writes(g, m, c.attr)
    ensures Sound(g, c.(invalid := true), start)
  {
  }

  lemma InvalidateKeeps<M(!new)>(g: Graph<M>, a: string, s: State<M>, m: M)
    requires Walking(g, s, a) && m in Last(s).modules && m in g.sources && !Writes(g, m, a)
    ensures var n := |s.comps| - 1;
            var t := s.(comps := s.comps[n := s.comps[n].(invalid := true)]);
            Walking(g, t, a) && Walked(g, a, s, t)
  {
    hide Sound, WellFormed;
    var n := |s.comps| - 1;
    var t := s.(comps := s.comps[n := s.comps[n].(invalid := true)]);
    SoundAnyway(g, s.comps[n], s.starts[n], m);
    forall x, b | (x, b) in s.ids && s.ids[(x, b)] != -1 ensures Belongs(t.comps, x, b, s.ids[(x, b)]) {
      assert Belongs(s.comps, x, b, s.ids[(x, b)]);
    }
  }

  // ---- the walks as relations between states ----

  ghost function Mark<M(!new)>(s: State<M>, m: M, v: int): State<M> {
    s.(scopes := s.scopes[m := v])
  }

  ghost predicate IsMarked<M(!new)>(s: State<M>, m: M) {
    m in s.scopes && s.scopes[m] == |s.comps|
  }

  ghost function Identify<M(!new)>(s: State<M>, m: M, a: string): State<M> {
    s.(ids := s.ids[(m, a) := |s.comps|])
  }

  ghost predicate IsOpen<M(!new)>(s: State<M>, m: M, a: string) {
    (m, a) in s.ids && s.ids[(m, a)] == -1
  }

  // A module without inputs makes the component invalid.
  ghost function Settle<M(!new)>(g: Graph<M>, s: State<M>, m: M): State<M> {
    if s.comps == [] || m !in g.sources then s
    else s.(comps := s.comps[|s.comps| - 1 := Last(s).(invalid := true)])
  }

  ghost function Front<T>(q: seq<T>): seq<T> {
    if q == [] then q else q[..|q| - 1]
  }

  ghost function End<T>(q: seq<T>): T
    requires q != []
  {
    q[|q| - 1]
  }

  // TraverseUpstream(m, attr) leads from s to t.
  least predicate RunsUp<M(!new)>[nat](g: Graph<M>, s: State<M>, m: M, attr: Attribute, t: State<M>) {
    s.comps != [] && var u := AddedTo(s, m, attr);
    if Writes(g, m, attr.name) then
      if IsOpen(u, m, attr.name) then RunsFrom(g, u, m, g.attrs[m][attr.name], t) else t == u
    else if IsMarked(u, m) then t == u
    else m in g.up && exists v :: RunsUpAll(g, Mark(u, m, |u.comps|), g.up[m], attr, v) && t == Settle(g, v, m)
  }

  // The same for every module of a list.
  least predicate RunsUpAll<M(!new)>[nat](g: Graph<M>, s: State<M>, us: seq<M>, attr: Attribute, t: State<M>) {
    if us == [] then t == s
    else exists v :: RunsUpAll(g, s, Front(us), attr, v) && RunsUp(g, v, End(us), attr, t)
  }

  // TraverseDownstream(m, attr) leads from s to t; found says whether it returns 0.
  least predicate RunsDown<M(!new)>[nat](g: Graph<M>, s: State<M>, m: M, attr: Attribute, t: State<M>, found: bool) {
    s.comps != [] && m in g.down &&
    if IsMarked(s, m) then t == s && !found
    else
      var u := Mark(s, m, |s.comps|);
      if Reads(g, m, attr.name) then
        var w := Identify(AddedTo(u, m, g.attrs[m][attr.name]), m, attr.name);
        found && exists v, b :: RunsDownAll(g, w, g.down[m], attr, v, b) && RunsUp(g, Mark(v, m, -1), m, attr, t)
      else if m in g.attrs && attr.name in g.attrs[m] then t == Mark(u, m, -1) && !found
      else exists v :: RunsDownAll(g, u, g.down[m], attr, v, found) && Joins(g, v, m, attr, t, found)
  }

  // The end of the walk of a module that neither reads nor writes.
  least predicate Joins<M(!new)>[nat](g: Graph<M>, s: State<M>, m: M, attr: Attribute, t: State<M>, found: bool) {
    if found then s.comps != [] && RunsUp(g, Mark(AddedTo(s, m, attr), m, -1), m, attr, t) else t == s
  }

  least predicate RunsDownAll<M(!new)>[nat](g: Graph<M>, s: State<M>, ds: seq<M>, attr: Attribute, t: State<M>, found: bool) {
    if ds == [] then t == s && !found
    else exists v, b, c :: RunsDownAll(g, s, Front(ds), attr, v, b) && RunsDown(g, v, End(ds), attr, t, c)
                           && found == (b || c)
  }

  // IdentifyScopeComponent(m, attr) leads from s to t.
  least predicate RunsFrom<M(!new)>[nat](g: Graph<M>, s: State<M>, m: M, attr: Attribute, t: State<M>) {
    s.comps != [] && m in g.down &&
    exists b :: RunsDownAll(g, Mark(Identify(AddedTo(s, m, attr), m, attr.name), m, |s.comps|), g.down[m], attr, t, b)
  }

  // The relations are functions: a walk has one outcome.
  lemma {:induction false} UpOnce<M(!new)>(k: nat, g: Graph<M>, s: State<M>, m: M, attr: Attribute, t: State<M>, u: State<M>)
    requires RunsUp#[k](g, s, m, attr, t) && RunsUp(g, s, m, attr, u)
    ensures t == u
    decreases k, 0
  {
    hide AddedTo, Settle, Mark, IsMarked, IsOpen;
    var w := AddedTo(s, m, attr);
    if Writes(g, m, attr.name) {
      if IsOpen(w, m, attr.name) { FromOnce(k - 1, g, w, m, g.attrs[m][attr.name], t, u); }
    } else if !IsMarked(w, m) {
      var x := Mark(w, m, |w.comps|);
      var v :| RunsUpAll#[k - 1](g, x, g.up[m], attr, v) && t == Settle(g, v, m);
      var y :| RunsUpAll(g, x, g.up[m], attr, y) && u == Settle(g, y, m);
      UpAllOnce(k - 1, g, x, g.up[m], attr, v, y);
    }
  }

  lemma {:induction false} UpAllOnce<M(!new)>(k: nat, g: Graph<M>, s: State<M>, us: seq<M>, attr: Attribute, t: State<M>, u: State<M>)
    requires RunsUpAll#[k](g, s, us, attr, t) && RunsUpAll(g, s, us, attr, u)
    ensures t == u
    decreases k, 0
  {
    if us != [] {
      var v :| RunsUpAll#[k - 1](g, s, Front(us), attr, v) && RunsUp#[k - 1](g, v, End(us), attr, t);
      var y :| RunsUpAll(g, s, Front(us), attr, y) && RunsUp(g, y, End(us), attr, u);
      UpAllOnce(k - 1, g, s, Front(us), attr, v, y);
      UpOnce(k - 1, g, v, End(us), attr, t, u);
    }
  }

  lemma {:induction false} DownOnce<M(!new)>(k: nat, g: Graph<M>, s: State<M>, m: M, attr: Attribute, t: State<M>, b: bool,
                                             u: State<M>, c: bool)
    requires RunsDown#[k](g, s, m, attr, t, b) && RunsDown(g, s, m, attr, u, c)
    ensures t == u && b == c
    decreases k, 0
  {
    if !IsMarked(s, m) {
      var x := Mark(s, m, |s.comps|);
      if Reads(g, m, attr.name) {
        var w := Identify(AddedTo(x, m, g.attrs[m][attr.name]), m, attr.name);
        var v, d :| RunsDownAll#[k - 1](g, w, g.down[m], attr, v, d) && RunsUp#[k - 1](g, Mark(v, m, -1), m, attr, t);
        var y, e :| RunsDownAll(g, w, g.down[m], attr, y, e) && RunsUp(g, Mark(y, m, -1), m, attr, u);
        DownAllOnce(k - 1, g, w, g.down[m], attr, v, d, y, e);
        UpOnce(k - 1, g, Mark(v, m, -1), m, attr, t, u);
      } else if !(m in g.attrs && attr.name in g.attrs[m]) {
        var v :| RunsDownAll#[k - 1](g, x, g.down[m], attr, v, b) && Joins#[k - 1](g, v, m, attr, t, b);
        var y :| RunsDownAll(g, x, g.down[m], attr, y, c) && Joins(g, y, m, attr, u, c);
        DownAllOnce(k - 1, g, x, g.down[m], attr, v, b, y, c);
        JoinsOnce(k - 1, g, v, m, attr, t, b, u);
      }
    }
  }

  lemma {:induction false} JoinsOnce<M(!new)>(k: nat, g: Graph<M>, s: State<M>, m: M, attr: Attribute, t: State<M>, b: bool,
                                              u: State<M>)
    requires Joins#[k](g, s, m, attr, t, b) && Joins(g, s, m, attr, u, b)
    ensures t == u
    decreases k, 0
  {
    if b { UpOnce(k - 1, g, Mark(AddedTo(s, m, attr), m, -1), m, attr, t, u); }
  }

  lemma {:induction false} DownAllOnce<M(!new)>(k: nat, g: Graph<M>, s: State<M>, ds: seq<M>, attr: Attribute, t: State<M>, b: bool,
                                                u: State<M>, c: bool)
    requires RunsDownAll#[k](g, s, ds, attr, t, b) && RunsDownAll(g, s, ds, attr, u, c)
    ensures t == u && b == c
    decreases k, 0
  {
    if ds != [] {
      var d := End(ds);
      var v, i, j :| RunsDownAll#[k - 1](g, s, Front(ds), attr, v, i) && RunsDown#[k - 1](g, v, d, attr, t, j) && b == (i || j);
      var y, p, q :| RunsDownAll(g, s, Front(ds), attr, y, p) && RunsDown(g, y, d, attr, u, q) && c == (p || q);
      DownAllOnce(k - 1, g, s, Front(ds), attr, v, i, y, p);
      DownOnce(k - 1, g, v, d, attr, t, j, u, q);
    }
  }

  lemma {:induction false} FromOnce<M(!new)>(k: nat, g: Graph<M>, s: State<M>, m: M, attr: Attribute, t: State<M>, u: State<M>)
    requires RunsFrom#[k](g, s, m, attr, t) && RunsFrom(g, s, m, attr, u)
    ensures t == u
    decreases k, 0
  {
    var w := Mark(Identify(AddedTo(s, m, attr), m, attr.name), m, |s.comps|);
    var b :| RunsDownAll#[k - 1](g, w, g.down[m], attr, t, b);
    var c :| RunsDownAll(g, w, g.down[m], attr, u, c);
    DownAllOnce(k - 1, g, w, g.down[m], attr, t, b, u, c);
  }

  // The rules the code follows.
  lemma UpAtWriter<M(!new)>(g: Graph<M>, s: State<M>, m: M, attr: Attribute, t: State<M>)
    requires s.comps != [] && Writes(g, m, attr.name)
    requires var u := AddedTo(s, m, attr);
      if IsOpen(u, m, attr.name) then RunsFrom(g, u, m, g.attrs[m][attr.name], t) else t == u
    ensures RunsUp(g, s, m, attr, t)
  {
  }

  lemma UpStops<M(!new)>(g: Graph<M>, s: State<M>, m: M, attr: Attribute)
    requires s.comps != [] && !Writes(g, m, attr.name) && IsMarked(AddedTo(s, m, attr), m)
    ensures RunsUp(g, s, m, attr, AddedTo(s, m, attr))
  {
  }

  lemma UpClimbs<M(!new)>(g: Graph<M>, s: State<M>, m: M, attr: Attribute, t: State<M>)
    requires s.comps != [] && !Writes(g, m, attr.name)
    requires var u := AddedTo(s, m, attr); !IsMarked(u, m) && Climbs(g, Mark(u, m, |u.comps|), m, attr, t)
    ensures RunsUp(g, s, m, attr, t)
  {
  }

  ghost predicate Climbs<M(!new)>(g: Graph<M>, s: State<M>, m: M, attr: Attribute, t: State<M>) {
    m in g.up && exists v :: RunsUpAll(g, s, g.up[m], attr, v) && t == Settle(g, v, m)
  }

  lemma UpAllNext<M(!new)>(g: Graph<M>, s: State<M>, us: seq<M>, i: nat, attr: Attribute, t: State<M>, u: State<M>)
    requires i < |us| && RunsUpAll(g, s, us[..i], attr, t) && RunsUp(g, t, us[i], attr, u)
    ensures RunsUpAll(g, s, us[..i + 1], attr, u)
  {
    var vs := us[..i + 1];
    assert Front(vs) == us[..i] && End(vs) == us[i];
  }

  lemma AllNone<M(!new)>(g: Graph<M>, s: State<M>, ms: seq<M>, attr: Attribute)
    ensures RunsUpAll(g, s, ms[..0], attr, s) && RunsDownAll(g, s, ms[..0], attr, s, false)
  {
  }

  lemma DownStops<M(!new)>(g: Graph<M>, s: State<M>, m: M, attr: Attribute)
    requires s.comps != [] && m in g.down && IsMarked(s, m)
    ensures RunsDown(g, s, m, attr, s, false)
  {
  }

  ghost predicate ReadsOn<M(!new)>(g: Graph<M>, s: State<M>, m: M, attr: Attribute, t: State<M>) {
    && s.comps != [] && m in g.down && Reads(g, m, attr.name)
    && exists b :: RunsDownAll(g, Identify(AddedTo(s, m, g.attrs[m][attr.name]), m, attr.name), g.down[m], attr, t, b)
  }

  lemma DownReads<M(!new)>(g: Graph<M>, s: State<M>, m: M, attr: Attribute, v: State<M>, t: State<M>)
    requires s.comps != [] && m in g.down && Reads(g, m, attr.name) && !IsMarked(s, m)
    requires ReadsOn(g, Mark(s, m, |s.comps|), m, attr, v) && RunsUp(g, Mark(v, m, -1), m, attr, t)
    ensures RunsDown(g, s, m, attr, t, true)
  {
    hide AddedTo, Identify, Mark, IsMarked;
  }

  lemma DownAtWriter<M(!new)>(g: Graph<M>, s: State<M>, m: M, attr: Attribute)
    requires s.comps != [] && m in g.down && !Reads(g, m, attr.name) && m in g.attrs && attr.name in g.attrs[m] && !IsMarked(s, m)
    ensures RunsDown(g, s, m, attr, Mark(Mark(s, m, |s.comps|), m, -1), false)
  {
  }

  lemma DownPasses<M(!new)>(g: Graph<M>, s: State<M>, m: M, attr: Attribute, v: State<M>, t: State<M>, found: bool)
    requires s.comps != [] && m in g.down && m in g.attrs && attr.name !in g.attrs[m] && !IsMarked(s, m)
    requires RunsDownAll(g, Mark(s, m, |s.comps|), g.down[m], attr, v, found)
    requires if found then v.comps != [] && RunsUp(g, Mark(AddedTo(v, m, attr), m, -1), m, attr, t) else t == v
    ensures RunsDown(g, s, m, attr, t, found)
  {
    hide AddedTo, Mark, IsMarked;
    assert Joins(g, v, m, attr, t, found);
  }

  lemma DownAllNext<M(!new)>(g: Graph<M>, s: State<M>, ds: seq<M>, i: nat, attr: Attribute, t: State<M>, b: bool,
                             u: State<M>, c: bool)
    requires i < |ds| && RunsDownAll(g, s, ds[..i], attr, t, b) && RunsDown(g, t, ds[i], attr, u, c)
    ensures RunsDownAll(g, s, ds[..i + 1], attr, u, b || c)
  {
    var vs := ds[..i + 1];
    assert Front(vs) == ds[..i] && End(vs) == ds[i];
  }

  lemma FromWalks<M(!new)>(g: Graph<M>, s: State<M>, m: M, attr: Attribute, t: State<M>, b: bool)
    requires s.comps != [] && m in g.down
    requires RunsDownAll(g, Mark(Identify(AddedTo(s, m, attr), m, attr.name), m, |s.comps|), g.down[m], attr, t, b)
    ensures RunsFrom(g, s, m, attr, t)
  {
  }

  // The modules before a member that does not write have reason to be members.
  lemma UpstreamMayAdd<M(!new)>(g: Graph<M>, a: string, s: State<M>, m: M, u: M)
    requires Walking(g, s, a) && m in Last(s).modules && !Writes(g, m, a) && u in g.modules && Feeds(g, u, m)
    ensures MayAdd(g, s, a, u)
  {
    var n := |s.comps| - 1;
    assert Sound(g, s.comps[n], s.starts[n]);
  }

  lemma DownstreamMayAdd<M(!new)>(g: Graph<M>, a: string, s: State<M>, m: M, d: M)
    requires Walking(g, s, a) && m in g.modules
    requires Reads(g, m, a) || (d in Last(s).modules && !Writes(g, d, a) && Feeds(g, m, d))
    ensures MayAdd(g, s, a, m)
  {
    if !Reads(g, m, a) { UpstreamMayAdd(g, a, s, d, m); }
  }

  lemma MemberMayAdd<M(!new)>(g: Graph<M>, a: string, s: State<M>, m: M)
    requires Walking(g, s, a) && m in Last(s).modules && m in g.modules
    ensures MayAdd(g, s, a, m)
  {
  }

  lemma IdentifiedOnce<M(!new)>(g: Graph<M>, a: string, s: State<M>, t: State<M>, m: M)
    requires Walked(g, a, s, t) && Writes(g, m, a) && (m, a) in t.ids && t.ids[(m, a)] != -1
    ensures Unidentified(g, t, a) <= Unidentified(g, s, a) - {m} && Unmarked(g, t, a) <= g.modules
  {
  }

  // What the fields are known to hold during a walk.
  lemma Looked<M(!new)>(g: Graph<M>, a: string, s: State<M>, m: M)
    requires Walking(g, s, a) && m in g.modules
    ensures m in s.scopes && m in g.up && m in g.down && m in g.attrs && s.comps != []
    ensures a in g.attrs[m] <==> (m, a) in s.ids
    ensures forall u :: u in g.up[m] ==> u in g.modules && Feeds(g, u, m)
    ensures forall d :: d in g.down[m] ==> d in g.modules && Feeds(g, m, d)
    ensures a in g.attrs[m] ==> g.attrs[m][a].name == a && (Reads(g, m, a) <==> !Writes(g, m, a))
    ensures Reads(g, m, a) ==> a in g.attrs[m]
    ensures Writes(g, m, a) ==> a in g.attrs[m] && m !in Unmarked(g, s, a)
    ensures !Writes(g, m, a) ==> (m in Unmarked(g, s, a) <==> s.scopes[m] != |s.comps|)
    ensures Writes(g, m, a) ==> (m in Unidentified(g, s, a) <==> s.ids[(m, a)] == -1)
  {
    hide Sound, Belongs;
  }

  // ---- upstream closure ----

  // Modules around a writer, and an order of theirs.
  datatype Plan<!M> = Plan(zone: set<M>, rank: map<M, int>)

  // The zone holds no writer of a; past modules that do not write, no link leads
  // out of it; inside it the links agree in both directions and run in no cycle.
  ghost predicate Zoned<M(!new)>(g: Graph<M>, a: string, p: Plan<M>) {
    && WellFormed(g) && p.zone <= g.modules && p.zone <= p.rank.Keys && (forall x :: x in p.zone ==> !Writes(g, x, a))
    && (forall x, d :: x in p.zone && d in g.down[x] ==>
          x in g.up[d] && (Writes(g, d, a) || (d in p.zone && p.rank[x] < p.rank[d])))
    && (forall x, u :: x in p.zone && u in g.up[x] ==> x in g.down[u] && (Writes(g, u, a) || u in p.zone))
  }

  // Besides writers, u feeds x alone.
  ghost predicate FeedsOnly<M(!new)>(g: Graph<M>, a: string, u: M, x: M) {
    u in g.down && forall d :: d in g.down[u] ==> d == x || Writes(g, d, a)
  }

  // A writer in front of the zone is known already, or feeds one module only.
  ghost predicate Quiet<M(!new)>(g: Graph<M>, a: string, p: Plan<M>, known: set<M>) {
    forall x, u :: x in p.zone && x in g.up && u in g.up[x] && Writes(g, u, a) && u !in known ==> FeedsOnly(g, a, u, x)
  }

  // The walks of writer m stay in the zone, and no other writer leads them astray.
  ghost predicate Separate<M(!new)>(g: Graph<M>, a: string, p: Plan<M>, known: set<M>, m: M) {
    && Zoned(g, a, p) && Quiet(g, a, p, known + {m})
    && m in g.down && forall d :: d in g.down[m] ==> Writes(g, d, a) || d in p.zone
  }

  ghost function Known<M(!new)>(g: Graph<M>, s: State<M>, a: string): set<M> {
    g.modules - Unidentified(g, s, a)
  }

  // With m goes everything before it; and a module without inputs makes the
  // component invalid.
  ghost predicate ClosedAt<M(!new)>(g: Graph<M>, c: Component<M>, m: M) {
    && (m in g.up ==> forall u :: u in g.up[m] ==> u in c.modules)
    && (m in g.sources ==> c.invalid)
  }

  ghost predicate UpstreamClosed<M(!new)>(g: Graph<M>, c: Component<M>) {
    forall m :: m in c.modules && !HasMode(g, m, c.attr, Write) ==> ClosedAt(g, c, m)
  }

  // The state between steps of a walk whose modules in progress are e: members
  // are closed, and visited modules left out of scope lead nowhere.
  ghost predicate Tidy<M(!new)>(g: Graph<M>, p: Plan<M>, a: string, s: State<M>, e: set<M>) {
    && Zoned(g, a, p) && Quiet(g, a, p, Known(g, s, a)) && e <= p.zone && s.comps != [] && s.scopes.Keys == g.modules
    && (forall m :: m in Last(s).modules && !Writes(g, m, a) && m !in e ==>
          m !in Unmarked(g, s, a) && ClosedAt(g, Last(s), m))
    && (forall m :: m in g.modules && LeftOut(g, a, s, e, m) ==>
          forall d :: d in g.down[m] ==> Writes(g, d, a) || LeftOut(g, a, s, e, d))
  }

  ghost predicate LeftOut<M(!new)>(g: Graph<M>, a: string, s: State<M>, e: set<M>, m: M)
    requires s.comps != []
  {
    !Writes(g, m, a) && m !in Unmarked(g, s, a) && m !in Last(s).modules && m !in e
  }

  // Modules in progress come before m.
  ghost predicate Below<M(!new)>(p: Plan<M>, e: set<M>, m: M) {
    m in p.rank && forall x :: x in e ==> x in p.rank && p.rank[x] < p.rank[m]
  }

  // Module m may be walked downstream from here: the walk stops at once, or goes
  // deeper into the zone.
  ghost predicate DownReady<M(!new)>(g: Graph<M>, p: Plan<M>, a: string, s: State<M>, e: set<M>, m: M) {
    Writes(g, m, a) || m !in Unmarked(g, s, a) || (m in p.zone && Below(p, e, m))
  }

  // Everything behind m may be.
  ghost predicate AllReady<M(!new)>(g: Graph<M>, p: Plan<M>, a: string, s: State<M>, e: set<M>, m: M) {
    m in g.down && forall d :: d in g.down[m] ==> DownReady(g, p, a, s, e, d)
  }

  // Module m may be walked upstream from here.
  ghost predicate UpReady<M(!new)>(g: Graph<M>, p: Plan<M>, a: string, s: State<M>, e: set<M>, m: M) {
    && m in g.modules
    && if m in Unmarked(g, s, a) then Tidy(g, p, a, s, e + {m})
       else Tidy(g, p, a, s, e) && !LeftOut(g, a, s, e, m) && (m in Unidentified(g, s, a) ==> AllReady(g, p, a, s, e, m))
  }

  lemma TidyAdd<M(!new)>(g: Graph<M>, p: Plan<M>, a: string, s: State<M>, t: State<M>, e: set<M>, m: M)
    requires Tidy(g, p, a, s, e) && !LeftOut(g, a, s, e, m)
    requires |t.comps| == |s.comps| && t.ids == s.ids && t.scopes == s.scopes
    requires Last(t).modules == Last(s).modules + {m} && Last(t).invalid == Last(s).invalid
    requires m in e || Writes(g, m, a) || m in Last(s).modules
    ensures Tidy(g, p, a, t, e)
  {
    hide Zoned, Quiet;
    assert Unmarked(g, t, a) == Unmarked(g, s, a) && Unidentified(g, t, a) == Unidentified(g, s, a);
    forall x ensures LeftOut(g, a, t, e, x) == LeftOut(g, a, s, e, x) {}
  }

  // Taking up an unmarked module.
  lemma TidyTake<M(!new)>(g: Graph<M>, p: Plan<M>, a: string, s: State<M>, e: set<M>, m: M)
    requires Tidy(g, p, a, s, e) && m in Unmarked(g, s, a) && m in p.zone
    ensures Tidy(g, p, a, s, e + {m})
  {
    hide Zoned, Quiet, ClosedAt, Unmarked, Unidentified;
    forall x ensures LeftOut(g, a, s, e + {m}, x) == LeftOut(g, a, s, e, x) {}
  }

  // The marks of writers and of modules in progress do not matter.
  lemma TidyMark<M(!new)>(g: Graph<M>, p: Plan<M>, a: string, s: State<M>, e: set<M>, m: M, v: int)
    requires Tidy(g, p, a, s, e) && (m in e || Writes(g, m, a)) && m in g.modules
    ensures Tidy(g, p, a, Mark(s, m, v), e)
  {
    hide Zoned, Quiet, ClosedAt, Writes;
    var t := Mark(s, m, v);
    forall x | x != m ensures x in Unmarked(g, t, a) <==> x in Unmarked(g, s, a) {}
    assert Unidentified(g, t, a) == Unidentified(g, s, a);
    hide Unmarked, Unidentified;
    forall x ensures LeftOut(g, a, t, e, x) == LeftOut(g, a, s, e, x) {}
  }

  // A closed member is done.
  lemma TidyDone<M(!new)>(g: Graph<M>, p: Plan<M>, a: string, s: State<M>, e: set<M>, m: M)
    requires Tidy(g, p, a, s, e + {m}) && m !in Unmarked(g, s, a) && m in Last(s).modules && ClosedAt(g, Last(s), m)
    ensures Tidy(g, p, a, s, e)
  {
    hide Zoned, Quiet, ClosedAt, Unmarked, Unidentified;
    forall x ensures LeftOut(g, a, s, e + {m}, x) == LeftOut(g, a, s, e, x) {}
  }

  lemma TidyInvalid<M(!new)>(g: Graph<M>, p: Plan<M>, a: string, s: State<M>, e: set<M>)
    requires Tidy(g, p, a, s, e)
    ensures var n := |s.comps| - 1;
            Tidy(g, p, a, s.(comps := s.comps[n := s.comps[n].(invalid := true)]), e)
  {
    hide Zoned, Quiet, Writes;
    var n := |s.comps| - 1;
    var t := s.(comps := s.comps[n := s.comps[n].(invalid := true)]);
    assert Unmarked(g, t, a) == Unmarked(g, s, a) && Unidentified(g, t, a) == Unidentified(g, s, a);
    forall x ensures LeftOut(g, a, t, e, x) == LeftOut(g, a, s, e, x) {}
  }

  // A module whose walk found nothing in scope stays outside: it feeds only
  // writers and modules that stay outside as well.
  lemma TidyLeave<M(!new)>(g: Graph<M>, p: Plan<M>, a: string, s: State<M>, e: set<M>, m: M)
    requires Tidy(g, p, a, s, e + {m}) && m in g.modules && m !in Last(s).modules
    requires forall d :: d in g.down[m] ==> d !in Unmarked(g, s, a)
    requires Below(p, e, m)
    ensures Tidy(g, p, a, s, e)
  {
    hide Unmarked, Unidentified, Writes, Quiet;
    forall x ensures LeftOut(g, a, s, e + {m}, x) == (LeftOut(g, a, s, e, x) && x != m) {}
    forall d | d in g.down[m] && !Writes(g, d, a) ensures LeftOut(g, a, s, e, d) {
      assert p.rank[m] < p.rank[d] && m in g.up[d];
      assert d in Last(s).modules ==> ClosedAt(g, Last(s), d);
    }
  }

  // Before a member in progress only modules that may be walked upstream.
  lemma TidyUpstream<M(!new)>(g: Graph<M>, p: Plan<M>, a: string, s: State<M>, e: set<M>, m: M, u: M)
    requires Tidy(g, p, a, s, e) && m in e && m in Last(s).modules && m !in Unmarked(g, s, a) && m in g.modules && u in g.up[m]
    ensures UpReady(g, p, a, s, e, u)
  {
    hide ClosedAt, Below;
    if u in Unmarked(g, s, a) {
      TidyTake(g, p, a, s, e, u);
    } else if u in Unidentified(g, s, a) {
      assert FeedsOnly(g, a, u, m);
    }
  }

  // What a walk behind m goes on with.
  lemma ReadyOn<M(!new)>(g: Graph<M>, p: Plan<M>, a: string, s: State<M>, t: State<M>, e: set<M>, m: M)
    requires AllReady(g, p, a, s, e, m) && Unmarked(g, t, a) <= Unmarked(g, s, a)
    ensures AllReady(g, p, a, t, e, m)
  {
    hide Writes, Unmarked, Below;
    forall d | d in g.down[m] ensures DownReady(g, p, a, t, e, d) {
      assert DownReady(g, p, a, s, e, d);
    }
  }

  lemma ReadyNow<M(!new)>(g: Graph<M>, p: Plan<M>, a: string, s: State<M>, t: State<M>, e: set<M>, m: M, d: M)
    requires AllReady(g, p, a, s, e, m) && Unmarked(g, t, a) <= Unmarked(g, s, a) && d in g.down[m]
    ensures DownReady(g, p, a, t, e, d)
  {
    ReadyOn(g, p, a, s, t, e, m);
  }

  // Visiting an unmarked module of the zone.
  lemma TidyVisit<M(!new)>(g: Graph<M>, p: Plan<M>, a: string, s: State<M>, e: set<M>, m: M)
    requires Tidy(g, p, a, s, e) && DownReady(g, p, a, s, e, m) && m in g.modules && m in Unmarked(g, s, a)
    ensures var t := Mark(s, m, |s.comps|);
            Tidy(g, p, a, t, e + {m}) && Below(p, e, m) && m !in Last(s).modules && AllReady(g, p, a, t, e + {m}, m)
  {
    hide ClosedAt, Unidentified, Quiet;
    TidyTake(g, p, a, s, e, m);
    TidyMark(g, p, a, s, e + {m}, m, |s.comps|);
  }

  lemma TidyIds<M(!new)>(g: Graph<M>, p: Plan<M>, a: string, s: State<M>, t: State<M>, e: set<M>)
    requires Tidy(g, p, a, s, e) && t.comps == s.comps && t.scopes == s.scopes
    requires Unidentified(g, t, a) <= Unidentified(g, s, a)
    ensures Tidy(g, p, a, t, e)
  {
    hide Zoned, ClosedAt, Writes, FeedsOnly;
    assert Unmarked(g, t, a) == Unmarked(g, s, a);
    assert Quiet(g, a, p, Known(g, t, a)) by { hide Tidy; }
    forall x ensures LeftOut(g, a, t, e, x) == LeftOut(g, a, s, e, x) {}
  }

  lemma AddedShape<M(!new)>(c: Component<M>, m: M, attr: Attribute)
    ensures var d := Added(c, m, attr); d.modules == c.modules + {m} && d.invalid == c.invalid
  {
  }

  lemma UnmarkedSame<M(!new)>(g: Graph<M>, a: string, s: State<M>, t: State<M>)
    requires t.scopes == s.scopes && |t.comps| == |s.comps|
    ensures Unmarked(g, t, a) == Unmarked(g, s, a)
  {
  }

  lemma AddedSize<M(!new)>(c: Component<M>, m: M, attr: Attribute)
    ensures c.modules == {} ==> Added(c, m, attr).size == attr.size && Added(c, m, attr).modules != {}
  {
  }

  // Adding m before its upstream walk.
  lemma UpAdded<M(!new)>(g: Graph<M>, p: Plan<M>, s: State<M>, t: State<M>, e: set<M>, m: M, attr: Attribute)
    requires s.comps != [] && m in g.modules
    requires t == AddedTo(s, m, attr)
    ensures UpReady(g, p, attr.name, s, e, m) ==>
              if m in Unmarked(g, t, attr.name) then Tidy(g, p, attr.name, t, e + {m})
              else Tidy(g, p, attr.name, t, e) && (m in Unidentified(g, t, attr.name) ==> AllReady(g, p, attr.name, t, e, m))
  {
    hide Tidy, Added, Unmarked, ClosedAt, Writes, AllReady;
    var a := attr.name;
    AddedShape(Last(s), m, attr);
    UnmarkedSame(g, a, s, t);
    assert Unidentified(g, t, a) == Unidentified(g, s, a);
    if UpReady(g, p, a, s, e, m) {
      TidyAdd(g, p, a, s, t, if m in Unmarked(g, s, a) then e + {m} else e, m);
      if AllReady(g, p, a, s, e, m) { ReadyOn(g, p, a, s, t, e, m); }
    }
  }

  lemma AddedInProgress<M(!new)>(g: Graph<M>, p: Plan<M>, s: State<M>, t: State<M>, e: set<M>, m: M, attr: Attribute)
    requires s.comps != [] && (m in e || Writes(g, m, attr.name)) && t == AddedTo(s, m, attr)
    ensures Tidy(g, p, attr.name, s, e) ==> Tidy(g, p, attr.name, t, e)
  {
    AddedShape(Last(s), m, attr);
    hide Tidy, Added, Unidentified, Unmarked;
    if Tidy(g, p, attr.name, s, e) { TidyAdd(g, p, attr.name, s, t, e, m); }
  }

  // A new component is about to be started for m.
  ghost predicate Starts<M(!new)>(g: Graph<M>, p: Plan<M>, a: string, s: State<M>, m: M) {
    && Separate(g, a, p, Known(g, s, a), m) && s.comps != [] && Last(s).modules == {}
    && s.scopes.Keys == g.modules && forall x :: x in g.modules ==> s.scopes[x] != |s.comps|
  }

  // Writer m may be walked from here: it starts the component, or what is
  // behind it may be walked in the middle of another walk.
  ghost predicate FromReady<M(!new)>(g: Graph<M>, p: Plan<M>, a: string, s: State<M>, e: set<M>, m: M) {
    (e == {} && Starts(g, p, a, s, m)) || (Tidy(g, p, a, s, e) && AllReady(g, p, a, s, e, m))
  }

  // The first step of a component.
  lemma TidyStart<M(!new)>(g: Graph<M>, p: Plan<M>, s: State<M>, t: State<M>, m: M, attr: Attribute)
    requires Starts(g, p, attr.name, s, m) && m in g.modules && Writes(g, m, attr.name)
    requires Unidentified(g, t, attr.name) <= Unidentified(g, s, attr.name) - {m}
    requires t.comps == AddedTo(s, m, attr).comps && t.scopes == s.scopes[m := |s.comps|]
    ensures Tidy(g, p, attr.name, t, {}) && AllReady(g, p, attr.name, t, {}, m)
  {
    hide FeedsOnly;
    var a := attr.name;
    assert Quiet(g, a, p, Known(g, t, a)) by { hide Zoned, Unidentified; }
    hide Zoned, Quiet;
    forall x | x in g.modules ensures !LeftOut(g, a, t, {}, x) {}
    assert AllReady(g, p, a, t, {}, m) by { ZoneRanked(g, a, p); }
  }

  lemma ZoneRanked<M(!new)>(g: Graph<M>, a: string, p: Plan<M>)
    requires Zoned(g, a, p)
    ensures p.zone <= p.rank.Keys
  {
  }

  // The first step of a writer's walk.
  lemma TidyFrom<M(!new)>(g: Graph<M>, p: Plan<M>, s: State<M>, t: State<M>, e: set<M>, m: M, attr: Attribute)
    requires s.comps != [] && FromReady(g, p, attr.name, s, e, m) && m in g.modules && Writes(g, m, attr.name)
    requires Unidentified(g, t, attr.name) <= Unidentified(g, s, attr.name) - {m}
    requires t == Mark(Identify(AddedTo(s, m, attr), m, attr.name), m, |s.comps|)
    ensures Tidy(g, p, attr.name, t, e) && AllReady(g, p, attr.name, t, e, m)
  {
    hide Tidy, Starts, AllReady, Added;
    var a := attr.name;
    if e == {} && Starts(g, p, a, s, m) {
      TidyStart(g, p, s, t, m, attr);
    } else {
      var u := AddedTo(s, m, attr);
      AddedInProgress(g, p, s, u, e, m, attr);
      var v := Identify(u, m, a);
      TidyIds(g, p, a, u, v, e);
      TidyMark(g, p, a, v, e, m, |s.comps|);
      ReadyOn(g, p, a, s, t, e, m);
    }
  }

  // ---- readers are not passed over ----

  // A reader that was visited is a member, except those in e.
  ghost predicate ReadersIn<M(!new)>(g: Graph<M>, a: string, s: State<M>, e: set<M>) {
    s.comps != [] && forall x :: x in g.modules && Reads(g, x, a) && x !in Unmarked(g, s, a) && x !in e ==> x in Last(s).modules
  }

  // Everything behind m was visited.
  ghost predicate Visited<M(!new)>(g: Graph<M>, a: string, s: State<M>, m: M) {
    m in g.down && forall d :: d in g.down[m] ==> d !in Unmarked(g, s, a)
  }

  lemma VisitedOn<M(!new)>(g: Graph<M>, a: string, s: State<M>, t: State<M>, m: M)
    requires Walked(g, a, s, t)
    ensures Visited(g, a, s, m) ==> Visited(g, a, t, m)
  {
  }

  lemma VisitedAll<M(!new)>(g: Graph<M>, a: string, s: State<M>, m: M)
    requires Visited(g, a, s, m)
    ensures m in g.down && forall d :: d in g.down[m] ==> d !in Unmarked(g, s, a)
  {
  }

  lemma UnmarkedBut<M(!new)>(g: Graph<M>, a: string, s: State<M>, t: State<M>, m: M)
    requires t.comps == s.comps && m in s.scopes && t.scopes == s.scopes[m := -1]
    ensures Unmarked(g, t, a) <= Unmarked(g, s, a) + {m}
  {
  }

  // Members only become more and marks stay.
  lemma ReadersAdd<M(!new)>(g: Graph<M>, a: string, s: State<M>, t: State<M>, e: set<M>, m: M)
    requires s.comps != [] && t.comps != [] && Last(s).modules <= Last(t).modules && m in Last(t).modules
    requires t.scopes == s.scopes && |t.comps| == |s.comps|
    ensures ReadersIn(g, a, s, e) ==> ReadersIn(g, a, t, e - {m})
  {
    UnmarkedSame(g, a, s, t);
  }

  lemma ReadersMark<M(!new)>(g: Graph<M>, a: string, s: State<M>, m: M, v: int)
    requires s.comps != [] && m in g.modules && m in s.scopes
    ensures var t := Mark(s, m, v);
      && (ReadersIn(g, a, s, {}) ==> ReadersIn(g, a, t, {m}))
      && (ReadersIn(g, a, s, {}) && (!Reads(g, m, a) || m in Last(s).modules || v != |s.comps|) ==> ReadersIn(g, a, t, {}))
  {
  }

  // The readers directly behind the starting writer are members.
  ghost predicate Fed<M(!new)>(g: Graph<M>, c: Component<M>, start: M) {
    start in g.down &&
    forall d :: d in g.down[start] && (HasMode(g, d, c.attr, Read) || HasMode(g, d, c.attr, Update)) ==> d in c.modules
  }

  lemma FedAtLast<M(!new)>(g: Graph<M>, a: string, s: State<M>, m: M)
    requires WellFormed(g) && m in g.modules && ReadersIn(g, a, s, {}) && Visited(g, a, s, m) && Last(s).attr == a
    ensures Fed(g, Last(s), m)
  {
  }

  // What is known of a discovered component: it is not empty, and closed when
  // the writer it was started for is separate from all writers not yet known.
  ghost predicate Finished<M(!new)>(g: Graph<M>, c: Component<M>, start: M, known: set<M>) {
    c.modules != {} && ((exists p :: Separate(g, c.attr, p, known, start)) ==> UpstreamClosed(g, c))
  }

  function Fresh<M(!new)>(): Component<M> {
    Component("", 0, {}, false)
  }

  lemma WriterListed<M(!new)>(g: Graph<M>, m: M, a: string)
    requires WellFormed(g) && m in g.modules && Writes(g, m, a)
    ensures m in g.attrs && a in g.attrs[m] && g.attrs[m][a].name == a
  {
  }

  ghost function Opened<M(!new)>(s: State<M>, m: M): State<M> {
    s.(comps := s.comps + [Fresh()], starts := s.starts + [m])
  }

  // Opening an empty component.
  lemma OpenKeeps<M(!new)>(g: Graph<M>, s: State<M>, m: M)
    requires Valid(g, s)
    ensures Valid(g, Opened(s, m))
  {
    var t := Opened(s, m);
    assert Sound<M>(g, Fresh(), m);
    hide Sound, WellFormed;
    forall x, b | (x, b) in s.ids && s.ids[(x, b)] != -1 ensures Belongs(t.comps, x, b, s.ids[(x, b)]) {
      assert Belongs(s.comps, x, b, s.ids[(x, b)]);
    }
  }

  lemma StartsHere<M(!new)>(g: Graph<M>, p: Plan<M>, a: string, s: State<M>, m: M)
    requires Valid(g, s) && m in g.modules && Writes(g, m, a) && s.ids[(m, a)] == -1
    ensures var t := Opened(s, m);
            MayAdd(g, t, a, m) && Last(t).modules == {} && ReadersIn(g, a, t, {})
            && (Separate(g, a, p, Known(g, s, a), m) ==> Starts(g, p, a, t, m))
  {
    OpenKeeps(g, s, m);
    hide Sound, WellFormed, Separate;
    var t := Opened(s, m);
    assert Unidentified(g, t, a) == Unidentified(g, s, a);
  }

  lemma SeparateMore<M(!new)>(g: Graph<M>, a: string, p: Plan<M>, known: set<M>, more: set<M>, m: M)
    requires Separate(g, a, p, known, m) && known <= more
    ensures Separate(g, a, p, more, m)
  {
    hide Zoned, FeedsOnly, Writes;
  }

  // Knowing fewer writers asks more.
  lemma FinishedLess<M(!new)>(g: Graph<M>, c: Component<M>, start: M, known: set<M>)
    requires Finished(g, c, start, known)
    ensures Finished(g, c, start, {})
  {
    hide Separate, UpstreamClosed;
    if p :| Separate(g, c.attr, p, {}, start) {
      SeparateMore(g, c.attr, p, {}, known, start);
    }
  }

  // No writer starts two components of one attribute.
  ghost predicate StartsApart<M(!new)>(s: State<M>) {
    && |s.starts| == |s.comps|
    && (forall k :: 0 <= k < |s.comps| ==> StartKnown(s, s.starts[k], s.comps[k].attr))
    && forall i, j :: 0 <= i < j < |s.comps| && s.comps[i].attr == s.comps[j].attr ==> s.starts[i] != s.starts[j]
  }

  ghost predicate StartKnown<M(!new)>(s: State<M>, m: M, a: string) {
    (m, a) in s.ids && s.ids[(m, a)] != -1
  }

  lemma StartsApartOn<M(!new)>(s: State<M>, t: State<M>, m: M, a: string)
    requires StartsApart(s) && |t.comps| == |s.comps| + 1 && t.comps[..|s.comps|] == s.comps && t.starts == s.starts + [m]
    requires Last(t).attr == a && !StartKnown(s, m, a) && StartKnown(t, m, a)
    requires forall k :: k in s.ids && s.ids[k] != -1 ==> k in t.ids && t.ids[k] != -1
    ensures StartsApart(t)
  {
    forall k | 0 <= k < |s.comps| ensures t.comps[k] == s.comps[k] && t.starts[k] == s.starts[k] {
      assert t.comps[..|s.comps|][k] == t.comps[k];
    }
  }

  // An attribute with one writer has one component, whoever updates it.
  lemma OneComponentEach<M(!new)>(g: Graph<M>, s: State<M>, w: M, a: string, i: nat, j: nat)
    requires Valid(g, s) && StartsApart(s) && i < |s.comps| && j < |s.comps| && s.comps[i].attr == a && s.comps[j].attr == a
    requires s.comps[i].modules != {} && s.comps[j].modules != {} && forall m :: HasMode(g, m, a, Write) ==> m == w
    ensures i == j && w in s.comps[i].modules
  {
    assert Sound(g, s.comps[i], s.starts[i]) && Sound(g, s.comps[j], s.starts[j]);
    assert s.starts[i] == w && s.starts[j] == w;
  }

  // The discovery over a list of attributes leads from s to t.
  ghost predicate Discovers<M(!new)>(g: Graph<M>, s: State<M>, todo: seq<(M, Attribute)>, t: State<M>)
    decreases |todo|
  {
    if todo == [] then t == s
    else exists v :: Discovers(g, s, Front(todo), v) && Attends(g, v, End(todo).0, End(todo).1, t)
  }

  // A writer not identified yet gets a component.
  ghost predicate Attends<M(!new)>(g: Graph<M>, s: State<M>, m: M, attr: Attribute, t: State<M>) {
    if Writes(g, m, attr.name) && IsOpen(s, m, attr.name) then RunsFrom(g, Opened(s, m), m, attr, t) else t == s
  }

  lemma DiscoversNone<M(!new)>(g: Graph<M>, s: State<M>, todo: seq<(M, Attribute)>)
    ensures Discovers(g, s, todo[..0], s)
  {
  }

  lemma DiscoversNext<M(!new)>(g: Graph<M>, s: State<M>, todo: seq<(M, Attribute)>, i: nat, t: State<M>, u: State<M>)
    requires i < |todo| && Discovers(g, s, todo[..i], t) && Attends(g, t, todo[i].0, todo[i].1, u)
    ensures Discovers(g, s, todo[..i + 1], u)
  {
    hide Attends;
    var q := todo[..i + 1];
    assert Front(q) == todo[..i] && End(q) == todo[i];
  }

  lemma AttendsOnce<M(!new)>(g: Graph<M>, s: State<M>, m: M, attr: Attribute, t: State<M>, u: State<M>)
    requires Attends(g, s, m, attr, t) && Attends(g, s, m, attr, u)
    ensures t == u
  {
    if Writes(g, m, attr.name) && IsOpen(s, m, attr.name) {
      var k: nat :| RunsFrom#[k](g, Opened(s, m), m, attr, t);
      FromOnce(k, g, Opened(s, m), m, attr, t, u);
    }
  }

  // The discovery has one outcome.
  lemma {:induction false} DiscoversOnce<M(!new)>(g: Graph<M>, s: State<M>, todo: seq<(M, Attribute)>, t: State<M>, u: State<M>)
    requires Discovers(g, s, todo, t) && Discovers(g, s, todo, u)
    ensures t == u
    decreases |todo|
  {
    hide Attends;
    if todo != [] {
      var v :| Discovers(g, s, Front(todo), v) && Attends(g, v, End(todo).0, End(todo).1, t);
      var w :| Discovers(g, s, Front(todo), w) && Attends(g, w, End(todo).0, End(todo).1, u);
      DiscoversOnce(g, s, Front(todo), v, w);
      AttendsOnce(g, v, End(todo).0, End(todo).1, t, u);
    }
  }

  // The state in which the discovery starts.
  ghost function Initial<M(!new)>(g: Graph<M>): State<M>
    requires g.modules <= g.attrs.Keys
  {
    State([], map m | m in g.modules :: -1, map m, a | m in g.modules && a in g.attrs[m] :: (m, a) := -1, [])
  }

  lemma WalkExtends<M(!new)>(g: Graph<M>, a: string, s: State<M>, t: State<M>)
    requires Walked(g, a, s, t)
    ensures |t.comps| == |s.comps| && t.comps[..|s.comps| - 1] == s.comps[..|s.comps| - 1] && t.starts == s.starts
    ensures Last(t).attr == a
  {
  }

  lemma TidyFinishes<M(!new)>(g: Graph<M>, p: Plan<M>, a: string, s: State<M>)
    requires Tidy(g, p, a, s, {}) && Last(s).attr == a
    ensures UpstreamClosed(g, Last(s))
  {
  }

  // A path the packets take, from a module without inputs.
  ghost predicate Route<M>(g: Graph<M>, p: seq<M>) {
    && p != [] && p[0] in g.sources
    && forall i :: 0 < i < |p| ==> p[i] in g.up && p[i - 1] in g.up[p[i]]
  }

  // What a valid component is for: whatever way a packet takes to a member, it
  // met a writer of the attribute that is a member too, and after the last one
  // only members.
  lemma {:induction false} WrittenOnTheWay<M(!new)>(g: Graph<M>, c: Component<M>, p: seq<M>)
    requires UpstreamClosed(g, c) && !c.invalid && Route(g, p) && p[|p| - 1] in c.modules
    ensures exists i :: 0 <= i < |p| && HasMode(g, p[i], c.attr, Write) && forall j :: i <= j < |p| ==> p[j] in c.modules
  {
    var n := |p| - 1;
    if !Writes(g, p[n], c.attr) {
      assert ClosedAt(g, c, p[n]);
      var q := p[..n];
      WrittenOnTheWay(g, c, q);
      var i :| 0 <= i < |q| && HasMode(g, q[i], c.attr, Write) && forall j :: i <= j < |q| ==> q[j] in c.modules;
      assert forall j :: i <= j < |p| ==> j == n || p[j] == q[j];
    }
  }

  class Pipeline<M(==, !new)> {
    const g: Graph<M>
    var comps: seq<Component<M>>
    var scopes: map<M, int>
    var ids: map<(M, string), int>
    ghost var starts: seq<M>

    // PrepareMetadataComputation.
    constructor (graph: Graph<M>)
      requires WellFormed(graph)
      ensures g == graph && Valid(g, S()) && S() == Initial(g)
    {
      g := graph;
      comps := [];
      scopes := map m | m in graph.modules :: -1;
      ids := map m, a | m in graph.modules && a in graph.attrs[m] :: (m, a) := -1;
      starts := [];
    }

    ghost function S(): State<M>
      reads this
    {
      State(comps, scopes, ids, starts)
    }

    method AddModuleToComponent(m: M, attr: Attribute)
      requires MayAdd(g, S(), attr.name, m)
      modifies `comps
      ensures Walking(g, S(), attr.name) && Walked(g, attr.name, old(S()), S())
      ensures S() == old(AddedTo(S(), m, attr))
      ensures m in Last(S()).modules
    {
      hide Valid, Warranted, Writes, Walking, Walked;
      AddKeeps(g, S(), m, attr);
      var n := |comps| - 1;
      var c := comps[n];
      if m !in c.modules {
        if c.modules == {} {
          c := c.(attr := attr.name, size := attr.size);
        }
        assert {} + {m} == {m};
        comps := comps[n := c.(modules := c.modules + {m})];
      } else {
        assert comps[n := c] == comps;
      }
    }

    method TraverseUpstream(m: M, attr: Attribute, ghost p: Plan<M>, ghost e: set<M>)
      requires m in g.modules && Walking(g, S(), attr.name) && MayAdd(g, S(), attr.name, m)
      modifies `comps, `scopes, `ids
      ensures Walking(g, S(), attr.name) && Walked(g, attr.name, old(S()), S())
      ensures RunsUp(g, old(S()), m, attr, S())
      ensures Member(S(), m) && m !in Unmarked(g, S(), attr.name)
      ensures old(UpReady(g, p, attr.name, S(), e, m)) ==> Tidy(g, p, attr.name, S(), e)
      ensures old(ReadersIn(g, attr.name, S(), {})) ==> ReadersIn(g, attr.name, S(), {})
      decreases Unidentified(g, S(), attr.name), Unmarked(g, S(), attr.name), 0, 0
    {
      hide Walking, Walked, MayAdd, Unmarked, Unidentified, Writes, Added, Tidy, UpReady, AllReady, ClosedAt, ReadersIn, Climbs;
      hide RunsUp, RunsFrom;
      var a := attr.name;
      ghost var s := S();
      AddModuleToComponent(m, attr);
      ghost var t := S();
      Looked(g, a, t, m);
      WalkShrinks(g, a, s, t);
      UpAdded(g, p, s, t, e, m, attr);
      ReadersAdd(g, a, s, t, {}, m);
      assert {} - {m} == {};
      if Writes(g, m, a) {
        if ids[(m, a)] == -1 {
          MemberMayAdd(g, a, t, m);
          IdentifyScopeComponent(m, g.attrs[m][a], p, e);
          WalkShrinks(g, a, t, S());
          WalkedOn(g, a, s, t, S());
        }
        UpAtWriter(g, s, m, attr, S());
        return;
      }
      if scopes[m] == |comps| {
        UpStops(g, s, m, attr);
        return;
      }
      MarkKeeps(g, a, t, m);
      if Tidy(g, p, a, t, e + {m}) { TidyMark(g, p, a, t, e + {m}, m, |comps|); }
      ReadersMark(g, a, t, m, |comps|);
      scopes := scopes[m := |comps|];
      WalkedOn(g, a, s, t, S());
      WalkShrinks(g, a, s, S());
      t := S();
      UpstreamOf(m, attr, p, e);
      WalkedOn(g, a, s, t, S());
      UpClimbs(g, s, m, attr, S());
    }

    // The loop over the input gates of module m, just marked.
    method UpstreamOf(m: M, attr: Attribute, ghost p: Plan<M>, ghost e: set<M>)
      requires m in g.modules && Walking(g, S(), attr.name) && Member(S(), m)
      requires !Writes(g, m, attr.name) && m !in Unmarked(g, S(), attr.name)
      modifies `comps, `scopes, `ids
      ensures Walking(g, S(), attr.name) && Walked(g, attr.name, old(S()), S())
      ensures Climbs(g, old(S()), m, attr, S())
      ensures Member(S(), m) && m !in Unmarked(g, S(), attr.name)
      ensures old(Tidy(g, p, attr.name, S(), e + {m})) ==> Tidy(g, p, attr.name, S(), e)
      ensures old(ReadersIn(g, attr.name, S(), {})) ==> ReadersIn(g, attr.name, S(), {})
      decreases Unidentified(g, S(), attr.name), Unmarked(g, S(), attr.name), 0, 1
    {
      hide Walking, Walked, MayAdd, Unmarked, Unidentified, Writes, Added, Tidy, UpReady, Feeds, ReadersIn, RunsUp, RunsUpAll;
      var a := attr.name;
      ghost var s := S();
      ghost var tidy := Tidy(g, p, a, s, e + {m});
      Looked(g, a, s, m);
      WalkedHere(g, a, s);
      AllNone(g, s, g.up[m], attr);
      for i := 0 to |g.up[m]|
        invariant Walking(g, S(), a) && Walked(g, a, s, S())
        invariant comps != [] && m in Last(S()).modules && RunsUpAll(g, s, g.up[m][..i], attr, S())
        invariant forall u :: u in g.up[m][..i] ==> u in Last(S()).modules
        invariant tidy ==> Tidy(g, p, a, S(), e + {m})
        invariant ReadersIn(g, a, s, {}) ==> ReadersIn(g, a, S(), {})
      {
        ghost var t := S();
        WalkShrinks(g, a, s, t);
        UpstreamMayAdd(g, a, t, m, g.up[m][i]);
        if tidy { TidyUpstream(g, p, a, t, e + {m}, m, g.up[m][i]); }
        TraverseUpstream(g.up[m][i], attr, p, e + {m});
        UpAllNext(g, s, g.up[m], i, attr, t, S());
        WalkShrinks(g, a, t, S());
        WalkedOn(g, a, s, t, S());
      }
      assert g.up[m][..|g.up[m]|] == g.up[m];
      WalkShrinks(g, a, s, S());
      ghost var t := S();
      if m in g.sources {
        InvalidateKeeps(g, a, t, m);
        if tidy { TidyInvalid(g, p, a, t, e + {m}); }
        var n := |comps| - 1;
        comps := comps[n := comps[n].(invalid := true)];
        WalkShrinks(g, a, t, S());
        ReadersAdd(g, a, t, S(), {}, m);
        assert {} - {m} == {};
        WalkedOn(g, a, s, t, S());
      }
      assert S() == Settle(g, t, m);
      if tidy { TidyDone(g, p, a, S(), e, m); }
    }

    method TraverseDownstream(m: M, attr: Attribute, ghost p: Plan<M>, ghost e: set<M>) returns (r: int)
      requires m in g.modules && Walking(g, S(), attr.name)
      modifies `comps, `scopes, `ids
      ensures Walking(g, S(), attr.name) && Walked(g, attr.name, old(S()), S())
      ensures (r == 0 || r == -1) && RunsDown(g, old(S()), m, attr, S(), r == 0)
      ensures comps != [] && (r == 0 ==> m in Last(S()).modules && !Writes(g, m, attr.name))
      ensures r == -1 ==> comps == old(comps)
      ensures m !in Unmarked(g, S(), attr.name)
      ensures old(DownReady(g, p, attr.name, S(), e, m) && Tidy(g, p, attr.name, S(), e)) ==> Tidy(g, p, attr.name, S(), e)
      ensures old(ReadersIn(g, attr.name, S(), {})) ==> ReadersIn(g, attr.name, S(), {})
      ensures old(m in Unmarked(g, S(), attr.name)) ==> Visited(g, attr.name, S(), m)
      decreases Unidentified(g, S(), attr.name), Unmarked(g, S(), attr.name), 1, 0
    {
      hide Walking, Walked, MayAdd, Unmarked, Unidentified, Writes, Added, Feeds, Tidy, DownReady, AllReady, Below, ReadersIn, Visited;
      hide RunsUp, RunsDown, RunsDownAll, ReadsOn;
      var a := attr.name;
      ghost var s := S();
      ghost var tidy := DownReady(g, p, a, s, e, m) && Tidy(g, p, a, s, e);
      Looked(g, a, s, m);
      WalkedHere(g, a, s);
      if scopes[m] == |comps| {
        DownStops(g, s, m, attr);
        return -1;
      }
      MarkKeeps(g, a, s, m);
      if tidy && !Writes(g, m, a) { TidyVisit(g, p, a, s, e, m); }
      ReadersMark(g, a, s, m, |comps|);
      scopes := scopes[m := |comps|];
      ghost var marked := S();
      WalkShrinks(g, a, s, marked);
      if Reads(g, m, a) {
        ReadDownstream(m, attr, p, e + {m});
        ghost var v := S();
        WalkShrinks(g, a, marked, v);
        WalkedOn(g, a, s, marked, v);
        BackUpstream(m, attr, s, p, e);
        DownReads(g, s, m, attr, v, S());
        return 0;
      } else if a in g.attrs[m] {
        UnmarkKeeps(g, a, s, marked, m);
        if tidy {
          TidyMark(g, p, a, s, e, m, |comps|);
          TidyMark(g, p, a, marked, e, m, -1);
        }
        ReadersMark(g, a, marked, m, -1);
        scopes := scopes[m := -1];
        WalkShrinks(g, a, s, S());
        Looked(g, a, S(), m);
        DownAtWriter(g, s, m, attr);
        return -1;
      }
      var inScope := WalkDownstream(m, attr, p, e + {m});
      ghost var v := S();
      WalkShrinks(g, a, marked, v);
      WalkedOn(g, a, s, marked, v);
      if inScope {
        JoinScope(m, attr, s, p, e);
        DownPasses(g, s, m, attr, v, S(), true);
        return 0;
      }
      if tidy { VisitedAll(g, a, S(), m); TidyLeave(g, p, a, S(), e, m); }
      DownPasses(g, s, m, attr, v, v, false);
      return -1;
    }

    // A module in front of one in scope joins the component.
    method JoinScope(m: M, attr: Attribute, ghost s: State<M>, ghost p: Plan<M>, ghost e: set<M>)
      requires m in g.modules && Walking(g, S(), attr.name) && comps != []
      requires exists d :: d in Last(S()).modules && !Writes(g, d, attr.name) && Feeds(g, m, d)
      requires Walked(g, attr.name, s, S()) && m in Unmarked(g, s, attr.name)
      modifies `comps, `scopes, `ids
      ensures Walking(g, S(), attr.name) && Walked(g, attr.name, s, S())
      ensures old(comps) != [] && RunsUp(g, old(Mark(AddedTo(S(), m, attr), m, -1)), m, attr, S())
      ensures Member(S(), m) && m !in Unmarked(g, S(), attr.name)
      ensures old(Tidy(g, p, attr.name, S(), e + {m})) ==> Tidy(g, p, attr.name, S(), e)
      ensures old(ReadersIn(g, attr.name, S(), {})) ==> ReadersIn(g, attr.name, S(), {})
      ensures old(Visited(g, attr.name, S(), m)) ==> Visited(g, attr.name, S(), m)
      decreases Unidentified(g, s, attr.name), Unmarked(g, s, attr.name), 0, 3
    {
      hide Walking, Walked, MayAdd, Unmarked, Unidentified, Writes, Added, Feeds, Tidy, ReadersIn, Visited, RunsUp;
      var a := attr.name;
      ghost var t := S();
      ghost var d :| d in Last(t).modules && !Writes(g, d, a) && Feeds(g, m, d);
      DownstreamMayAdd(g, a, t, m, d);
      AddModuleToComponent(m, attr);
      WalkedOn(g, a, s, t, S());
      AddedInProgress(g, p, t, S(), e + {m}, m, attr);
      WalkShrinks(g, a, t, S());
      ReadersAdd(g, a, t, S(), {}, m);
      assert {} - {m} == {};
      VisitedOn(g, a, t, S(), m);
      BackUpstream(m, attr, s, p, e);
    }

    method IdentifyScopeComponent(m: M, attr: Attribute, ghost p: Plan<M>, ghost e: set<M>)
      requires m in g.modules && MayAdd(g, S(), attr.name, m) && Writes(g, m, attr.name)
      requires (m, attr.name) in ids && ids[(m, attr.name)] == -1
      modifies `comps, `scopes, `ids
      ensures Walking(g, S(), attr.name) && Walked(g, attr.name, old(S()), S())
      ensures RunsFrom(g, old(S()), m, attr, S())
      ensures (m, attr.name) in ids && ids[(m, attr.name)] != -1
      ensures old(Last(S())).modules == {} ==> Last(S()).size == attr.size
      ensures old(FromReady(g, p, attr.name, S(), e, m)) ==> Tidy(g, p, attr.name, S(), e)
      ensures old(ReadersIn(g, attr.name, S(), {})) ==> ReadersIn(g, attr.name, S(), {})
      ensures Visited(g, attr.name, S(), m)
      decreases Unidentified(g, S(), attr.name) - {m}, g.modules, 3, 0
    {
      hide Walking, Walked, Valid, Unmarked, Unidentified, Writes, Tidy, AllReady, FromReady, Added, ReadersIn, Visited, RunsFrom, RunsDownAll;
      var a := attr.name;
      ghost var s := S();
      AddedSize(Last(s), m, attr);
      hide MayAdd;
      AddModuleToComponent(m, attr);
      ghost var t := S();
      Looked(g, a, t, m);
      WalkShrinks(g, a, s, t);
      ReadersAdd(g, a, s, t, {}, m);
      assert {} - {m} == {};
      IdentifyKeeps(g, a, t, m);
      ids := ids[(m, a) := |comps|];
      WalkedOn(g, a, s, t, S());
      ReadersAdd(g, a, t, S(), {}, m);
      t := S();
      MarkKeeps(g, a, t, m);
      ReadersMark(g, a, t, m, |comps|);
      scopes := scopes[m := |comps|];
      WalkedOn(g, a, s, t, S());
      t := S();
      IdentifiedOnce(g, a, s, t, m);
      if FromReady(g, p, a, s, e, m) {
        TidyFrom(g, p, s, t, e, m, attr);
      }
      var some := WalkDownstream(m, attr, p, e);
      FromWalks(g, s, m, attr, S(), some);
      WalkShrinks(g, a, t, S());
      WalkedOn(g, a, s, t, S());
    }

    // A reader joins the component, then its output gates are walked.
    method ReadDownstream(m: M, attr: Attribute, ghost p: Plan<M>, ghost e: set<M>)
      requires m in g.modules && Walking(g, S(), attr.name) && Reads(g, m, attr.name)
      modifies `comps, `scopes, `ids
      ensures Walking(g, S(), attr.name) && Walked(g, attr.name, old(S()), S())
      ensures ReadsOn(g, old(S()), m, attr, S())
      ensures Member(S(), m)
      ensures m in e && old(AllReady(g, p, attr.name, S(), e, m) && Tidy(g, p, attr.name, S(), e)) ==> Tidy(g, p, attr.name, S(), e)
      ensures old(ReadersIn(g, attr.name, S(), {m})) ==> ReadersIn(g, attr.name, S(), {})
      ensures Visited(g, attr.name, S(), m)
      decreases Unidentified(g, S(), attr.name), Unmarked(g, S(), attr.name), 2, 1
    {
      hide Walking, Walked, MayAdd, Unmarked, Unidentified, Writes, Added, Feeds, Tidy, AllReady, ReadersIn, Visited, RunsDownAll;
      var a := attr.name;
      ghost var s := S();
      ghost var tidy := m in e && AllReady(g, p, a, s, e, m) && Tidy(g, p, a, s, e);
      Looked(g, a, s, m);
      DownstreamMayAdd(g, a, s, m, m);
      AddModuleToComponent(m, g.attrs[m][a]);
      ghost var t := S();
      if tidy { AddedInProgress(g, p, s, t, e, m, g.attrs[m][a]); }
      WalkShrinks(g, a, s, t);
      ReadersAdd(g, a, s, t, {m}, m);
      assert {m} - {m} == {} && {} - {m} == {};
      IdentifyKeeps(g, a, t, m);
      ids := ids[(m, a) := |comps|];
      WalkedOn(g, a, s, t, S());
      WalkShrinks(g, a, t, S());
      if tidy { TidyIds(g, p, a, t, S(), e); }
      ReadersAdd(g, a, t, S(), {}, m);
      t := S();
      WalkShrinks(g, a, s, t);
      if tidy { ReadyOn(g, p, a, s, t, e, m); }
      var _ := WalkDownstream(m, attr, p, e);
      WalkShrinks(g, a, t, S());
      WalkedOn(g, a, s, t, S());
    }

    // The end of a downstream walk in scope: clear the mark, then walk upstream.
    method BackUpstream(m: M, attr: Attribute, ghost s: State<M>, ghost p: Plan<M>, ghost e: set<M>)
      requires m in g.modules && Walking(g, S(), attr.name) && Member(S(), m)
      requires Walked(g, attr.name, s, S()) && m in Unmarked(g, s, attr.name)
      modifies `comps, `scopes, `ids
      ensures Walking(g, S(), attr.name) && Walked(g, attr.name, s, S())
      ensures RunsUp(g, old(Mark(S(), m, -1)), m, attr, S())
      ensures Member(S(), m) && m !in Unmarked(g, S(), attr.name)
      ensures old(Tidy(g, p, attr.name, S(), e + {m})) ==> Tidy(g, p, attr.name, S(), e)
      ensures old(ReadersIn(g, attr.name, S(), {})) ==> ReadersIn(g, attr.name, S(), {})
      ensures old(Visited(g, attr.name, S(), m)) ==> Visited(g, attr.name, S(), m)
      decreases Unidentified(g, s, attr.name), Unmarked(g, s, attr.name), 0, 2
    {
      hide Walking, Walked, Unidentified, MayAdd, Tidy, ReadersIn, RunsUp;
      var a := attr.name;
      ghost var k := S();
      Looked(g, a, k, m);
      ReadersMark(g, a, k, m, -1);
      UnmarkKeeps(g, a, s, S(), m);
      if Tidy(g, p, a, S(), e + {m}) { TidyMark(g, p, a, S(), e + {m}, m, -1); }
      scopes := scopes[m := -1];
      assert m in Unmarked(g, S(), a);
      ghost var t := S();
      UnmarkedBut(g, a, k, t, m);
      hide Unmarked;
      WalkShrinks(g, a, s, t);
      MemberMayAdd(g, a, t, m);
      TraverseUpstream(m, attr, p, e);
      WalkShrinks(g, a, t, S());
      WalkedOn(g, a, s, t, S());
    }

    // The loop over the output gates of module m; some says whether any walk
    // came back in scope.
    method WalkDownstream(m: M, attr: Attribute, ghost p: Plan<M>, ghost e: set<M>) returns (some: bool)
      requires m in g.modules && Walking(g, S(), attr.name)
      modifies `comps, `scopes, `ids
      ensures Walking(g, S(), attr.name) && Walked(g, attr.name, old(S()), S())
      ensures m in g.down && RunsDownAll(g, old(S()), g.down[m], attr, S(), some)
      ensures Visited(g, attr.name, S(), m)
      ensures if some then exists d :: d in Last(S()).modules && !Writes(g, d, attr.name) && Feeds(g, m, d)
              else comps == old(comps)
      ensures old(AllReady(g, p, attr.name, S(), e, m) && Tidy(g, p, attr.name, S(), e)) ==> Tidy(g, p, attr.name, S(), e)
      ensures old(ReadersIn(g, attr.name, S(), {})) ==> ReadersIn(g, attr.name, S(), {})
      decreases Unidentified(g, S(), attr.name), Unmarked(g, S(), attr.name), 2, 0
    {
      hide Walking, Walked, MayAdd, Unmarked, Unidentified, Writes, Feeds, Tidy, DownReady, AllReady, Below, ReadersIn, RunsDown, RunsDownAll;
      var a := attr.name;
      ghost var s := S();
      ghost var tidy := AllReady(g, p, a, s, e, m) && Tidy(g, p, a, s, e);
      Looked(g, a, s, m);
      WalkedHere(g, a, s);
      AllNone(g, s, g.down[m], attr);
      some := false;
      ghost var d := m;
      for i := 0 to |g.down[m]|
        invariant Walking(g, S(), a) && Walked(g, a, s, S()) && comps != [] && RunsDownAll(g, s, g.down[m][..i], attr, S(), some)
        invariant if some then d in Last(S()).modules && !Writes(g, d, a) && Feeds(g, m, d) else comps == s.comps
        invariant forall x :: x in g.down[m][..i] ==> x !in Unmarked(g, S(), a)
        invariant tidy ==> Tidy(g, p, a, S(), e)
        invariant ReadersIn(g, a, s, {}) ==> ReadersIn(g, a, S(), {})
      {
        ghost var t := S();
        WalkShrinks(g, a, s, t);
        if tidy { ReadyNow(g, p, a, s, t, e, m, g.down[m][i]); }
        var r := TraverseDownstream(g.down[m][i], attr, p, e);
        DownAllNext(g, s, g.down[m], i, attr, t, some, S(), r == 0);
        if r != -1 {
          some := true;
          d := g.down[m][i];
        }
        WalkShrinks(g, a, t, S());
        WalkedOn(g, a, s, t, S());
      }
      assert g.down[m][..|g.down[m]|] == g.down[m];
    }

    // A new component, identified from writer m.
    method IdentifySingleScopeComponent(m: M, attr: Attribute)
      requires Valid(g, S()) && m in g.modules && Writes(g, m, attr.name) && g.attrs[m][attr.name] == attr
      requires (m, attr.name) in ids && ids[(m, attr.name)] == -1
      modifies this
      ensures Valid(g, S()) && |comps| == |old(comps)| + 1 && comps[..|old(comps)|] == old(comps)
      ensures RunsFrom(g, Opened(old(S()), m), m, attr, S())
      ensures Last(S()).attr == attr.name && Last(S()).size == attr.size && starts == old(starts) + [m]
      ensures Finished(g, Last(S()), m, old(Known(g, S(), attr.name))) && Fed(g, Last(S()), m)
      ensures forall k :: k in old(ids) && old(ids)[k] != -1 ==> k in ids && ids[k] != -1
      ensures (m, attr.name) in ids && ids[(m, attr.name)] != -1
    {
      hide Sound, WellFormed, Walked, Tidy, Separate, Unidentified, Writes, ReadersIn, Visited, Fed, RunsFrom;
      ghost var s := S();
      ghost var known := Known(g, s, attr.name);
      ghost var p: Plan<M> := Plan({}, map[]);
      if exists q :: Separate(g, attr.name, q, known, m) {
        p :| Separate(g, attr.name, p, known, m);
      }
      StartsHere(g, p, attr.name, s, m);
      comps := comps + [Fresh()];
      starts := starts + [m];
      ghost var t := S();
      assert t == Opened(s, m);
      hide MayAdd, Starts, Fresh, Known;
      IdentifyScopeComponent(m, attr, p, {});
      WalkShrinks(g, attr.name, t, S());
      WalkExtends(g, attr.name, t, S());
      FedAtLast(g, attr.name, S(), m);
      if Separate(g, attr.name, p, known, m) {
        TidyFinishes(g, p, attr.name, S());
      }
    }

    // The discovery: one pass over the attributes of all modules.
    method ComputeScopes(todo: seq<(M, Attribute)>)
      requires Valid(g, S()) && comps == []
      requires forall m, a :: m in g.modules && a in g.attrs[m] ==> (m, g.attrs[m][a]) in todo
      requires forall t :: t in todo ==> t.0 in g.modules && t.1.name in g.attrs[t.0] && g.attrs[t.0][t.1.name] == t.1
      modifies this
      ensures Valid(g, S()) && Discovers(g, old(S()), todo, S())
      ensures forall m, a :: m in g.modules && HasMode(g, m, a, Write) ==>
                (m, a) in ids && Belongs(comps, m, a, ids[(m, a)])
      ensures StartsApart(S())
      ensures |starts| == |comps| && forall k :: 0 <= k < |comps| ==> Finished(g, comps[k], starts[k], {})
      ensures forall k :: 0 <= k < |comps| ==> Fed(g, comps[k], starts[k])
    {
      hide Sound, WellFormed, Finished, Belongs, Writes, Fed, RunsFrom, Discovers, HasMode;
      ghost var s := S();
      DiscoversNone(g, s, todo);
      for i := 0 to |todo|
        invariant Valid(g, S()) && Discovers(g, s, todo[..i], S())
        invariant forall j :: 0 <= j < i && Writes(g, todo[j].0, todo[j].1.name) ==>
                    (todo[j].0, todo[j].1.name) in ids && ids[(todo[j].0, todo[j].1.name)] != -1
        invariant |starts| == |comps| && forall k :: 0 <= k < |comps| ==> Finished(g, comps[k], starts[k], {})
        invariant (forall k :: 0 <= k < |comps| ==> Fed(g, comps[k], starts[k])) && StartsApart(S())
      {
        var (m, attr) := todo[i];
        ghost var t := S();
        if Writes(g, m, attr.name) && ids[(m, attr.name)] == -1 {
          IdentifySingleScopeComponent(m, attr);
          FinishedLess(g, Last(S()), m, Known(g, t, attr.name));
          StartsApartOn(t, S(), m, attr.name);
        }
        DiscoversNext(g, s, todo, i, t, S());
      }
      assert todo[..|todo|] == todo;
      forall m, a | m in g.modules && Writes(g, m, a) ensures (m, a) in ids && ids[(m, a)] != -1 {
        WriterListed(g, m, a);
        assert (m, g.attrs[m][a]) in todo;
      }
    }
  }
}
