/** The profile list model and the node list that follows its active profile. */
module ProfileStore {
  import opened Profiles
  import opened Decimal
  import opened Text
  import opened ProxyNodes
  import opened ProbePool

  /** What a finished download brought: nothing, or a body with its name and traffic numbers. */
  datatype Reply = Failed | Body(name: string, content: string, info: Info)

  /** The node list shows the active profile's nodes, whenever that profile has any. */
  predicate Shows(lib: Library, content: string, nodes: seq<ProxyNode>) {
    ParseNodes(lib, content) != [] ==> Erased(nodes) == ParseNodes(lib, content)
  }

  lemma {:induction false} ErasedOfUntested(nodes: seq<ProxyNode>)
    requires AllUntested(nodes)
    ensures Erased(nodes) == nodes
  {
  }

  /** The URLs that are set and can be downloaded: valid and with a host. */
  function Urls(ps: seq<Profile>, isUsable: string -> bool): set<string> {
    set i | 0 <= i < |ps| && ps[i].url != "" && isUsable(ps[i].url) :: ps[i].url
  }

  lemma {:induction false} UrlsOneMore(ps: seq<Profile>, isUsable: string -> bool, i: nat)
    requires i < |ps|
    ensures Urls(ps[..i + 1], isUsable)
         == Urls(ps[..i], isUsable) + if ps[i].url != "" && isUsable(ps[i].url) then {ps[i].url} else {}
  {
    var a, b := ps[..i], ps[..i + 1];
    assert forall j :: 0 <= j < i ==> a[j] == b[j];
    assert b[i] == ps[i];
    forall u | u in Urls(a, isUsable) ensures u in Urls(b, isUsable) {
      var j :| 0 <= j < |a| && a[j].url != "" && isUsable(a[j].url) && a[j].url == u;
      assert b[j].url == u;
    }
  }

  lemma {:induction false} UrlsExactly(ps: seq<Profile>, isUsable: string -> bool)
    ensures forall u :: u in Urls(ps, isUsable) <==> exists i :: 0 <= i < |ps| && ps[i].url == u && u != "" && isUsable(u)
  {
  }

  lemma {:induction false} NoUrls(isUsable: string -> bool)
    ensures Urls([], isUsable) == {}
  {
  }

  lemma {:induction false} UnionStep(a: set<string>, b: set<string>, x: string)
    ensures a + b + {x} == a + (b + {x}) && a + (b + {}) == a + b
  {
  }

  lemma {:induction false} NewIsFree(ps: seq<Profile>, url: string, now: nat)
    ensures FreeId(ps, Print(now)) != "" && !HasId(ps, FreeId(ps, Print(now)))
    ensures IndexOfUrl(ps, url) < 0 ==> !HasUrl(ps, url)
  {
    hide FreeId, Print;
  }

  class ProfileListModel {
    var profiles: seq<Profile>
    var inFlight: set<string>
    var pendingDownloads: int
    var lastActiveId: string
    var file: Storage
    /** The node list once it is bound. */
    var view: ProxyListModel?

    ghost predicate Valid()
      reads this
    {
      && Good(profiles)
      && pendingDownloads == |inFlight|
      && lastActiveId == ActiveId(profiles)
      && Load(file) == profiles
      && AllStorable(profiles)
    }

    /** Between events, the bound node list agrees with the active profile. */
    ghost predicate InStep()
      reads this, view
    {
      && Valid()
      && (view != null ==> view.AtRest() && Shows(view.lib, ActiveContent(profiles), view.proxies))
    }

    /** The bound list shows the nodes of whichever profile is active, delays aside. */
    ghost predicate ShowsActive()
      requires view != null
      reads this, view
    {
      forall k :: 0 <= k < |profiles| && profiles[k].isActive ==> Shows(view.lib, profiles[k].content, view.proxies)
    }

    lemma {:induction false} InStepShows()
      requires InStep()
      ensures view != null ==> ShowsActive()
    {
      hide Shows, ActiveContent, Load, Good;
      forall k | 0 <= k < |profiles| && profiles[k].isActive ensures ActiveContent(profiles) == profiles[k].content {
        ActiveContentIs(profiles, k);
      }
    }

    function Views(): set<object>
      reads this
    {
      if view == null then {} else {view}
    }

    constructor (file: Storage)
      requires Good(Load(file)) && AllStorable(Load(file))
      ensures InStep() && profiles == Load(file) && view == null && inFlight == {}
    {
      this.file, profiles, lastActiveId := file, Load(file), ActiveId(Load(file));
      inFlight, pendingDownloads, view := {}, 0, null;
    }

    /** The signal of a changed active profile, delivered to the node list at once. */
    method ActiveProfileChanged(coreConfig: string)
      requires view != null ==> view.AtRest()
      modifies Views()
      ensures view != null ==> view.AtRest() && Shows(view.lib, ActiveContent(profiles), view.proxies)
    {
      hide ParseNodes, Erased;
      if view != null {
        view.Reload(ActiveContent(profiles), coreConfig);
        ErasedOfUntested(view.proxies);
      }
    }

    method BindView(nodes: ProxyListModel, coreConfig: string)
      requires Valid() && nodes.AtRest()
      modifies this`view, nodes
      ensures InStep() && view == nodes && profiles == old(profiles)
    {
      hide ParseNodes, Erased, Good, Load, Shows, ActiveContent, ProxyListModel.AtRest;
      view := nodes;
      ActiveProfileChanged(coreConfig);
    }

    method SaveFile()
      requires Good(profiles) && AllStorable(profiles)
      modifies this`file
      ensures file == Save(profiles) && Load(file) == profiles
    {
      SaveLoadRoundTrip(profiles);
      file := Save(profiles);
    }

    method SetActive(id: string, coreConfig: string)
      requires InStep()
      modifies this`profiles, this`file, this`lastActiveId, Views()
      ensures InStep() && profiles == Activated(old(profiles), id) && view == old(view)
      ensures view != null ==> ShowsActive()
    {
      hide Load, ParseNodes, Good, ActiveIndex, Shows, ProxyListModel.AtRest;
      ActivatedIsGood(profiles, id);
      ghost var target := Activated(profiles, id);
      var changed := false;
      for i := 0 to |profiles|
        modifies this`profiles
        invariant |profiles| == |target|
        invariant forall j :: 0 <= j < |profiles| ==> profiles[j] == if j < i then target[j] else old(profiles)[j]
        invariant !changed ==> profiles == old(profiles)
      {
        var shouldBeActive := profiles[i].id == id;
        if profiles[i].isActive != shouldBeActive {
          profiles := profiles[i := profiles[i].(isActive := shouldBeActive)];
          changed := true;
        }
      }
      assert profiles == target;
      if !changed {
        InStepShows();
        return;
      }
      SaveFile();
      lastActiveId := ActiveId(profiles);
      ActiveProfileChanged(coreConfig);
      InStepShows();
    }

    method DeleteProfile(id: string, coreConfig: string)
      requires InStep()
      modifies this`profiles, this`file, this`lastActiveId, Views()
      ensures InStep() && view == old(view)
      ensures var k := IndexOfId(old(profiles), id); profiles == if k < 0 then old(profiles) else Removed(old(profiles), k)
      ensures WasDeleted(old(profiles), profiles, id)
    {
      hide Load, ParseNodes, Good, ActiveIndex, Erased, Shows, WasDeleted, Removed, ActiveContent, ActiveId, ProxyListModel.AtRest;
      DeletedExactly(profiles, id);
      var row := IndexOfId(profiles, id);
      if row < 0 {
        return;
      }
      RemovedIsGood(profiles, row);
      RemovedStaysStorable(profiles, row);
      var wasActive := profiles[row].isActive;
      profiles := Removed(profiles, row);
      SaveFile();
      if wasActive {
        lastActiveId := "";
        ActiveProfileChanged(coreConfig);
      }
    }

    method RenameProfile(id: string, name: string)
      requires InStep()
      modifies this`profiles, this`file
      ensures InStep()
      ensures var k := IndexOfId(old(profiles), id);
              profiles == if k < 0 || Trim(name) == "" then old(profiles)
                          else old(profiles)[k := old(profiles)[k].(name := Trim(name))]
    {
      hide Load, ParseNodes, Good, ActiveIndex, Erased, Trim, Shows, ProxyListModel.AtRest;
      var row := IndexOfId(profiles, id);
      if row < 0 || Trim(name) == "" || profiles[row].name == Trim(name) {
        return;
      }
      EditIsGood(profiles, row, profiles[row].(name := Trim(name)));
      profiles := profiles[row := profiles[row].(name := Trim(name))];
      SaveFile();
    }

    /** The search for an unused id, with its loop. */
    method FindFreeId(start: string) returns (id: string)
      ensures id == FreeId(profiles, start) && IndexOfId(profiles, id) < 0
    {
      id := start;
      while IndexOfId(profiles, id) >= 0
        invariant FreeId(profiles, id) == FreeId(profiles, start)
        decreases |LongIds(profiles, id)|
      {
        LongIdsShrink(profiles, id);
        id := id + "0";
      }
      assert !HasId(profiles, id);
    }

    /** A profile with this URL is refreshed in place; anything else becomes a new profile. */
    method StoreProfile(url: string, name: string, content: string, info: Info, now: nat, coreConfig: string)
      requires InStep() && -INT_MAX - 1 <= info.remainingDays <= INT_MAX
      modifies this`profiles, this`file, this`lastActiveId, Views()
      ensures InStep() && view == old(view)
      ensures profiles == Stored(old(profiles), url, name, content, info, now)
      ensures WasStored(old(profiles), profiles, url, name, content, info, now)
      ensures view != null ==> ShowsActive()
    {
      StoredExactly(profiles, url, name, content, info, now);
      hide Stored, WasStored;
      hide Load, ParseNodes, Good, ActiveIndex, Erased, FreeId, Print, Shows, ProxyListModel.AtRest;
      var existing := if url == "" then -1 else IndexOfUrl(profiles, url);
      if existing >= 0 {
        RefreshAt(existing, name, content, info, now, coreConfig);
      } else {
        Append(url, name, content, info, now, coreConfig);
      }
      InStepShows();
    }

    method RefreshAt(k: nat, name: string, content: string, info: Info, now: nat, coreConfig: string)
      requires InStep() && k < |profiles| && -INT_MAX - 1 <= info.remainingDays <= INT_MAX
      modifies this`profiles, this`file, Views()
      ensures InStep() && view == old(view)
      ensures profiles == old(profiles)[k := Refreshed(old(profiles)[k], name, content, info, now)]
    {
      hide Load, ParseNodes, Good, ActiveIndex, Erased, Shows, ProxyListModel.AtRest;
      var p := Refreshed(profiles[k], name, content, info, now);
      EditIsGood(profiles, k, p);
      profiles := profiles[k := p];
      SaveFile();
      if p.isActive {
        ActiveProfileChanged(coreConfig);
      }
    }

    method Append(url: string, name: string, content: string, info: Info, now: nat, coreConfig: string)
      requires InStep() && -INT_MAX - 1 <= info.remainingDays <= INT_MAX
      requires url != "" ==> IndexOfUrl(profiles, url) < 0
      modifies this`profiles, this`file, this`lastActiveId, Views()
      ensures InStep() && view == old(view)
      ensures profiles == old(profiles) + [NewProfile(old(profiles), url, name, content, info, now)]
    {
      hide Load, ParseNodes, Good, ActiveIndex, Erased, FreeId, Print, Shows, ProxyListModel.AtRest, ActiveId, ActiveContent, HasId, HasUrl;
      NewIsFree(profiles, url, now);
      var id := FindFreeId(Print(now));
      var p := Profile(id, name, url, content, ActiveId(profiles) == "", info.totalGB, info.usedGB, info.remainingDays, now);
      AppendIsGood(profiles, p);
      profiles := profiles + [p];
      SaveFile();
      if p.isActive {
        lastActiveId := p.id;
        ActiveProfileChanged(coreConfig);
      }
    }

    /** The counter behind the loading flag; its clamp at zero is never reached. */
    method SetLoadingDelta(delta: int)
      modifies this`pendingDownloads
      ensures pendingDownloads == if old(pendingDownloads) + delta < 0 then 0 else old(pendingDownloads) + delta
    {
      pendingDownloads := if pendingDownloads + delta < 0 then 0 else pendingDownloads + delta;
    }

    /** Starts a download unless the URL is unusable or one is already running for it. */
    method DownloadProfile(url: string, usable: bool)
      requires InStep()
      modifies this`inFlight, this`pendingDownloads
      ensures InStep() && inFlight == if usable then old(inFlight) + {url} else old(inFlight)
    {
      if !usable {
        return;
      }
      if url in inFlight {
        assert inFlight + {url} == inFlight;
        return;
      }
      inFlight := inFlight + {url};
      SetLoadingDelta(1);
    }

    method HandleDownloadFinished(url: string, reply: Reply, now: nat, coreConfig: string)
      requires InStep() && url in inFlight
      requires reply.Body? ==> -INT_MAX - 1 <= reply.info.remainingDays <= INT_MAX
      modifies this, Views()
      ensures InStep() && view == old(view) && inFlight == old(inFlight) - {url}
      ensures pendingDownloads == old(pendingDownloads) - 1
      ensures reply.Failed? ==> profiles == old(profiles)
      ensures reply.Body? ==> WasStored(old(profiles), profiles, url, reply.name, reply.content, reply.info, now)
      ensures view != null ==> ShowsActive()
    {
      hide WasStored;
      hide Load, ParseNodes, Good, ActiveIndex, Erased, Stored, Shows, ProxyListModel.AtRest;
      inFlight := inFlight - {url};
      SetLoadingDelta(-1);
      if reply.Body? {
        StoreProfile(url, reply.name, reply.content, reply.info, now, coreConfig);
      } else {
        InStepShows();
      }
    }

    /** Re-downloads every profile that has a URL which can be downloaded. */
    method RefreshProfiles(isUsable: string -> bool)
      requires InStep()
      modifies this`inFlight, this`pendingDownloads
      ensures InStep() && profiles == old(profiles)
      ensures forall u :: u in inFlight <==>
        u in old(inFlight) || exists i :: 0 <= i < |profiles| && profiles[i].url == u && u != "" && isUsable(u)
    {
      hide Load, ParseNodes, Good, ActiveIndex, Erased, Shows, Urls, ProxyListModel.AtRest;
      var snapshot := profiles;
      assert Urls(snapshot[..0], isUsable) == {} by { NoUrls(isUsable); }
      for i := 0 to |snapshot|
        invariant InStep()
        invariant inFlight == old(inFlight) + Urls(snapshot[..i], isUsable)
      {
        UrlsOneMore(snapshot, isUsable, i);
        UnionStep(old(inFlight), Urls(snapshot[..i], isUsable), snapshot[i].url);
        if snapshot[i].url != "" {
          DownloadProfile(snapshot[i].url, isUsable(snapshot[i].url));
        }
      }
      assert snapshot[..|snapshot|] == snapshot;
      UrlsExactly(profiles, isUsable);
    }

    /** Probing the bound list, in any way, keeps it in step: it changes delays only. */
    method ProbeFinished(k: nat, delay: int)
      requires InStep() && view != null && k < |view.live|
      modifies Views()
      ensures InStep()
    {
      hide ParseNodes, Load;
      ghost var before := view.proxies;
      view.Finish(k, delay);
      UnprobedFixesErased(before, view.proxies);
    }

    method TestAllDelays()
      requires InStep() && view != null
      modifies Views()
      ensures InStep()
    {
      hide ParseNodes, Load;
      view.TestAllDelays();
    }
  }
}
