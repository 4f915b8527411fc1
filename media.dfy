/**
 * Media-controller role resolution: from a media node to the video node of
 * the decoder or of the camera (demo.c), and the same two-phase topology
 * query and two-hop walk that the standalone decoder demo repeats.
 *
 * The find helpers belong to media.c, which is not part of this model: each
 * is a lookup that returns the first record satisfying its predicate, and
 * no more is assumed of them than that the record returned satisfies it.
 */
module Media {
  import opened Kernel

  /* ---- abstract lookups over the topology records ---- */

  /** The position of the first element from `from` on that satisfies `p`. */
  function FindFrom<T>(s: seq<T>, p: T -> bool, from: nat): (r: Option<nat>)
    requires from <= |s|
    ensures r.Some? ==> from <= r.value < |s| && p(s[r.value]) &&
                        forall j | from <= j < r.value :: !p(s[j])
    ensures r.None? ==> forall j | from <= j < |s| :: !p(s[j])
    decreases |s| - from
  {
    if from == |s| then None
    else if p(s[from]) then Some(from)
    else FindFrom(s, p, from + 1)
  }

  /** The first element of `s` that satisfies `p`, if any does. */
  function Find<T>(s: seq<T>, p: T -> bool): (r: Option<T>)
    ensures r.Some? ==> r.value in s && p(r.value)
    ensures r.None? <==> forall x | x in s :: !p(x)
  {
    match FindFrom(s, p, 0)
    case None => None
    case Some(i) => Some(s[i])
  }

  predicate HasFlag(flags: bv32, flag: bv32) {
    flags & flag != 0
  }

  /** media_topology_entity_find_by_function */
  function EntityByFunction(t: Topology, role: nat): Option<Entity> {
    Find(t.entities, (e: Entity) => e.role == role)
  }

  /** media_topology_pad_find_by_entity: a pad of the entity with one of the flags. */
  function PadByEntity(t: Topology, entityId: nat, flags: bv32): Option<Pad> {
    Find(t.pads, (p: Pad) => p.entityId == entityId && HasFlag(p.flags, flags))
  }

  /** media_topology_link_find_by_pad: the link ending at a sink pad, or leaving a source pad. */
  function LinkByPad(t: Topology, padId: nat, padFlags: bv32): Option<Link> {
    Find(t.links, (l: Link) => if HasFlag(padFlags, MEDIA_PAD_FL_SINK) then l.sinkId == padId else l.sourceId == padId)
  }

  /** media_topology_pad_find_by_id */
  function PadById(t: Topology, id: nat): Option<Pad> {
    Find(t.pads, (p: Pad) => p.id == id)
  }

  /** media_topology_link_find_by_entity: the link ending at, or leaving, the entity. */
  function LinkByEntity(t: Topology, entityId: nat, padFlags: bv32): Option<Link> {
    Find(t.links, (l: Link) => if HasFlag(padFlags, MEDIA_PAD_FL_SINK) then l.sinkId == entityId else l.sourceId == entityId)
  }

  /** media_topology_interface_find_by_id */
  function InterfaceById(t: Topology, id: nat): Option<Interface> {
    Find(t.interfaces, (i: Interface) => i.id == id)
  }

  /* ---- the two-hop walk ---- */

  /** The records the walk passes through, from the entity to its interface. */
  datatype Route = Route(entity: Entity, sinkPad: Pad, sinkLink: Link,
                         sourcePad: Pad, sourceLink: Link, intf: Interface)

  /**
   * `r` is a path entity -> sink pad -> link -> source pad -> link ->
   * interface of `t`, starting at an entity with the role.
   */
  predicate Connects(t: Topology, role: nat, r: Route) {
    r.entity in t.entities && r.entity.role == role &&
    r.sinkPad in t.pads && r.sinkPad.entityId == r.entity.id && HasFlag(r.sinkPad.flags, MEDIA_PAD_FL_SINK) &&
    r.sinkLink in t.links && r.sinkLink.sinkId == r.sinkPad.id &&
    r.sourcePad in t.pads && r.sourcePad.id == r.sinkLink.sourceId &&
    r.sourceLink in t.links && r.sourceLink.sinkId == r.sourcePad.entityId &&
    r.intf in t.interfaces && r.intf.id == r.sourceLink.sourceId
  }

  /**
   * The walk of demo_open_media_decoder and media_device_probe: every hop
   * takes the first record that fits, and a missing hop ends the walk.
   */
  function Resolve(t: Topology, role: nat): (r: Option<Route>)
    ensures r.Some? ==> Connects(t, role, r.value)
  {
    match EntityByFunction(t, role)
    case None => None
    case Some(entity) =>
      match PadByEntity(t, entity.id, MEDIA_PAD_FL_SINK)
      case None => None
      case Some(sinkPad) =>
        match LinkByPad(t, sinkPad.id, sinkPad.flags)
        case None => None
        case Some(sinkLink) =>
          match PadById(t, sinkLink.sourceId)
          case None => None
          case Some(sourcePad) =>
            match LinkByEntity(t, sourcePad.entityId, MEDIA_PAD_FL_SINK)
            case None => None
            case Some(sourceLink) =>
              match InterfaceById(t, sourceLink.sourceId)
              case None => None
              case Some(intf) => Some(Route(entity, sinkPad, sinkLink, sourcePad, sourceLink, intf))
  }

  /** A graph with no records of some kind, or no entity with the role, resolves to nothing. */
  lemma ResolveNeedsRecords(t: Topology, role: nat)
    requires t.interfaces == [] || t.entities == [] || t.pads == [] || t.links == [] ||
             forall e | e in t.entities :: e.role != role
    ensures Resolve(t, role) == None
  {
  }

  /** When `s` holds exactly one element satisfying `p`, the lookup finds it. */
  lemma FindUnique<T>(s: seq<T>, p: T -> bool, x: T)
    requires x in s && p(x)
    requires forall y | y in s && p(y) :: y == x
    ensures Find(s, p) == Some(x)
  {
  }

  /**
   * In a graph where every hop of the route `r` is the only record that
   * fits, the walk returns exactly `r`, hence its interface.
   */
  lemma {:induction false} ResolveUniqueRoute(t: Topology, role: nat, r: Route)
    requires Connects(t, role, r)
    requires forall e | e in t.entities && e.role == role :: e == r.entity
    requires forall p | p in t.pads && p.entityId == r.entity.id && HasFlag(p.flags, MEDIA_PAD_FL_SINK) :: p == r.sinkPad
    requires forall l | l in t.links && l.sinkId == r.sinkPad.id :: l == r.sinkLink
    requires forall p | p in t.pads && p.id == r.sinkLink.sourceId :: p == r.sourcePad
    requires forall l | l in t.links && l.sinkId == r.sourcePad.entityId :: l == r.sourceLink
    requires forall i | i in t.interfaces && i.id == r.sourceLink.sourceId :: i == r.intf
    ensures Resolve(t, role) == Some(r)
  {
    FindUnique(t.entities, (e: Entity) => e.role == role, r.entity);
    FindUnique(t.pads, (p: Pad) => p.entityId == r.entity.id && HasFlag(p.flags, MEDIA_PAD_FL_SINK), r.sinkPad);
    FindUnique(t.links, (l: Link) => if HasFlag(r.sinkPad.flags, MEDIA_PAD_FL_SINK) then l.sinkId == r.sinkPad.id
                                     else l.sourceId == r.sinkPad.id, r.sinkLink);
    FindUnique(t.pads, (p: Pad) => p.id == r.sinkLink.sourceId, r.sourcePad);
    FindUnique(t.links, (l: Link) => if HasFlag(MEDIA_PAD_FL_SINK, MEDIA_PAD_FL_SINK) then l.sinkId == r.sourcePad.entityId
                                     else l.sourceId == r.sourcePad.entityId, r.sourceLink);
    FindUnique(t.interfaces, (i: Interface) => i.id == r.sourceLink.sourceId, r.intf);
  }

  /* ---- the two-phase topology query ---- */

  /** The graph arrays, in the order they are allocated. */
  const GRAPH_ARRAYS: seq<GraphArray> := [Interfaces, Entities, Pads, Links]

  predicate AnyZero(counts: MediaAnswer)
    requires counts.Counts?
  {
    counts.interfaces == 0 || counts.entities == 0 || counts.pads == 0 || counts.links == 0
  }

  function AllocationPlan(counts: MediaAnswer): seq<Op>
    requires counts.Counts?
  {
    [Media(Calloc(Interfaces, counts.interfaces)), Media(Calloc(Entities, counts.entities)),
     Media(Calloc(Pads, counts.pads)), Media(Calloc(Links, counts.links))]
  }

  /**
   * What the four allocations left: the first failure stops them, and
   * `acquired` lists the arrays allocated, in order.
   */
  ghost predicate AllocationOutcome(log: seq<Event>, counts: MediaAnswer, ret: int, acquired: seq<GraphArray>)
    requires counts.Counts?
  {
    |acquired| <= |GRAPH_ARRAYS| && acquired == GRAPH_ARRAYS[..|acquired|] &&
    FailFast(log, AllocationPlan(counts)) &&
    if |acquired| < |GRAPH_ARRAYS| then |log| == |acquired| + 1 && ret == -ENOMEM
    else Completed(log, AllocationPlan(counts)) && ret == 0
  }

  /**
   * What the topology query left: the device information, the counts, an
   * array for each kind of record, and the filled records.  Any zero count
   * is -ENODEV and a refused allocation -ENOMEM.
   */
  ghost predicate FetchOutcome(log: seq<Event>, mediaFd: int, ret: int, topology: Topology,
                               acquired: seq<GraphArray>) {
    1 <= |log| && log[0].op == Media(DeviceInfo(mediaFd)) &&
    if log[0].ret != 0 then ret == log[0].ret && |log| == 1 && acquired == []
    else
      2 <= |log| && log[1].op == Media(TopologyGet(mediaFd, false)) && log[1].out.MediaOut? && log[1].out.answer.Counts? &&
      if log[1].ret != 0 then ret == log[1].ret && |log| == 2 && acquired == []
      else if AnyZero(log[1].out.answer) then ret == -ENODEV && |log| == 2 && acquired == []
      else
        if |acquired| < |GRAPH_ARRAYS| then ret == -ENOMEM && AllocationOutcome(log[2..], log[1].out.answer, ret, acquired)
        else
          |log| == 7 && AllocationOutcome(log[2..6], log[1].out.answer, 0, acquired) &&
          log[6].op == Media(TopologyGet(mediaFd, true)) && log[6].out == MediaOut(Graph(topology)) && ret == log[6].ret
  }

  /** A fetch that returns 0 allocated every array, found no zero count and filled the graph. */
  lemma FetchSucceeded(log: seq<Event>, mediaFd: int, topology: Topology, acquired: seq<GraphArray>)
    requires FetchOutcome(log, mediaFd, 0, topology, acquired)
    ensures acquired == GRAPH_ARRAYS && |log| == 7
    ensures log[1].out.MediaOut? && log[1].out.answer.Counts? && !AnyZero(log[1].out.answer)
    ensures forall i | 0 <= i < 6 :: Succeeded(log[i])
    ensures log[6] == Event(Media(TopologyGet(mediaFd, true)), 0, MediaOut(Graph(topology)))
  {
    assert log[0].ret == 0 && log[1].ret == 0;
    assert !AnyZero(log[1].out.answer);
    forall i | 2 <= i < 6
      ensures Succeeded(log[i])
    {
      assert log[2..6][i - 2] == log[i];
    }
  }

  /**
   * The four callocs of the query, in the order interfaces, entities, pads,
   * links, each checked before the next.
   */
  method AllocateArrays(counts: MediaAnswer, k: Kernel) returns (ret: int, acquired: seq<GraphArray>, ghost log: seq<Event>)
    requires counts.Counts?
    modifies k
    ensures k.trace == old(k.trace) + log
    ensures AllocationOutcome(log, counts, ret, acquired)
  {
    ghost var plan := AllocationPlan(counts);
    acquired := [];
    log := [];
    var r := k.Call(Media(Calloc(Interfaces, counts.interfaces)));
    log := log + [Event(Media(Calloc(Interfaces, counts.interfaces)), r, NoOut)];
    if r != 0 {
      return -ENOMEM, acquired, log;
    }
    acquired := acquired + [Interfaces];
    r := k.Call(Media(Calloc(Entities, counts.entities)));
    log := log + [Event(Media(Calloc(Entities, counts.entities)), r, NoOut)];
    if r != 0 {
      return -ENOMEM, acquired, log;
    }
    acquired := acquired + [Entities];
    r := k.Call(Media(Calloc(Pads, counts.pads)));
    log := log + [Event(Media(Calloc(Pads, counts.pads)), r, NoOut)];
    if r != 0 {
      return -ENOMEM, acquired, log;
    }
    acquired := acquired + [Pads];
    r := k.Call(Media(Calloc(Links, counts.links)));
    log := log + [Event(Media(Calloc(Links, counts.links)), r, NoOut)];
    if r != 0 {
      return -ENOMEM, acquired, log;
    }
    acquired := acquired + [Links];
    return 0, acquired, log;
  }

  /**
   * The two-phase query of demo_open_media_decoder, demo_open_media_camera
   * and media_device_probe: the counts first, then the arrays, then the
   * records.
   */
  method FetchTopology(mediaFd: int, k: Kernel)
    returns (ret: int, topology: Topology, acquired: seq<GraphArray>, ghost log: seq<Event>)
    modifies k
    ensures k.trace == old(k.trace) + log
    ensures FetchOutcome(log, mediaFd, ret, topology, acquired)
    ensures |acquired| <= |GRAPH_ARRAYS| && acquired == GRAPH_ARRAYS[..|acquired|]
  {
    acquired := [];
    topology := Topology([], [], [], []);
    ret := k.Call(Media(DeviceInfo(mediaFd)));
    log := [Event(Media(DeviceInfo(mediaFd)), ret, NoOut)];
    if ret != 0 {
      return;
    }
    var ni, ne, np, nl;
    ret, ni, ne, np, nl := k.TopologyCounts(mediaFd);
    var counts := Counts(ni, ne, np, nl);
    log := log + [Event(Media(TopologyGet(mediaFd, false)), ret, MediaOut(counts))];
    if ret != 0 {
      return;
    }
    if ni == 0 || ne == 0 || np == 0 || nl == 0 {
      ret := -ENODEV;
      return;
    }
    ghost var allocLog;
    ret, acquired, allocLog := AllocateArrays(counts, k);
    ghost var head := log;
    log := log + allocLog;
    assert log[2..] == allocLog;
    if ret != 0 {
      return;
    }
    ret, topology := k.TopologyFill(mediaFd);
    log := log + [Event(Media(TopologyGet(mediaFd, true)), ret, MediaOut(Graph(topology)))];
    assert log[2..6] == allocLog;
    assert AllocationOutcome(log[2..6], log[1].out.answer, 0, acquired);
  }

  /** The frees at the end of the resolvers: the arrays allocated, last first. */
  function Frees(acquired: seq<GraphArray>): seq<Event> {
    if acquired == [] then []
    else [Event(Media(Free(acquired[|acquired| - 1])), 0, NoOut)] + Frees(acquired[..|acquired| - 1])
  }

  /** Every array allocated is freed once, and nothing else is freed. */
  lemma {:induction false} FreesExactly(acquired: seq<GraphArray>)
    ensures |Frees(acquired)| == |acquired|
    ensures forall i | 0 <= i < |acquired| ::
              Frees(acquired)[i] == Event(Media(Free(acquired[|acquired| - 1 - i])), 0, NoOut)
  {
    if acquired != [] {
      FreesExactly(acquired[..|acquired| - 1]);
    }
  }

  /**
   * The cleanup of the resolvers: close the media node, then free each
   * array that was allocated, links first.
   */
  method Release(mediaFd: int, acquired: seq<GraphArray>, k: Kernel)
    requires |acquired| <= |GRAPH_ARRAYS| && acquired == GRAPH_ARRAYS[..|acquired|]
    modifies k
    ensures k.trace == old(k.trace) + (if mediaFd >= 0 then [Event(Close(mediaFd), 0, NoOut)] else []) + Frees(acquired)
  {
    if mediaFd >= 0 {
      k.Void(Close(mediaFd));
    }
    ghost var mid := k.trace;
    if |acquired| >= 4 {
      k.Void(Media(Free(Links)));
    }
    if |acquired| >= 3 {
      k.Void(Media(Free(Pads)));
    }
    if |acquired| >= 2 {
      k.Void(Media(Free(Entities)));
    }
    if |acquired| >= 1 {
      k.Void(Media(Free(Interfaces)));
    }
    FreesExactly(acquired);
    assert k.trace[|mid|..] == Frees(acquired);
  }

  /* ---- from an interface to an open video node ---- */

  /** The code a node log answers: -ENODEV when there was no device, otherwise what open answered. */
  function NodeFd(log: seq<Event>): int {
    if |log| >= 3 then log[2].ret else -ENODEV
  }

  /**
   * udev_device_new_from_devnum, then udev_device_get_devnode and open of
   * the path it gives, which may be NULL, and last udev_device_unref when
   * `release` is set: no device is -ENODEV with nothing else called,
   * otherwise `fd` is what open answered.
   */
  ghost predicate NodeOpened(log: seq<Event>, major: nat, minor: nat, release: bool, fd: int) {
    1 <= |log| && log[0].op == Media(DeviceNew(major, minor)) && log[0].ret == 0 &&
    log[0].out.MediaOut? && log[0].out.answer.Device? &&
    if !log[0].out.answer.found then log == [log[0]] && fd == -ENODEV
    else
      |log| == (if release then 4 else 3) &&
      log[1].op == Media(DevnodeGet(major, minor)) && log[1].ret == 0 &&
      log[1].out.MediaOut? && log[1].out.answer.Devnode? &&
      log[2] == Event(Open(log[1].out.answer.path), fd, NoOut) &&
      (release ==> log[3] == Event(Media(DeviceUnref(major, minor)), 0, NoOut))
  }

  /** The device node of `major:minor` opened, the device released after the open when `release` is set. */
  method OpenDevnode(major: nat, minor: nat, release: bool, k: Kernel) returns (fd: int, ghost log: seq<Event>)
    modifies k
    ensures k.trace == old(k.trace) + log
    ensures NodeOpened(log, major, minor, release, fd) && fd == NodeFd(log)
  {
    var found := k.DeviceNew(major, minor);
    log := [Event(Media(DeviceNew(major, minor)), 0, MediaOut(Device(found)))];
    if !found {
      return -ENODEV, log;
    }
    var path := k.DevnodeGet(major, minor);
    fd := k.Call(Open(path));
    log := log + [Event(Media(DevnodeGet(major, minor)), 0, MediaOut(Devnode(path))), Event(Open(path), fd, NoOut)];
    if release {
      k.Void(Media(DeviceUnref(major, minor)));
      log := log + [Event(Media(DeviceUnref(major, minor)), 0, NoOut)];
    }
  }

  /* ---- demo_open_media_decoder ---- */

  /**
   * demo_open_media_decoder: open the media node, query the graph, walk
   * from the decoder entity to its interface and open its video node.
   * `videoFdOut` differs from `videoFd` only on success; the media node is
   * closed and every array allocated is freed on every path after the open.
   */
  method OpenMediaDecoder(mediaPath: string, videoFd: int, k: Kernel)
    returns (ret: int, videoFdOut: int, ghost mediaFd: int, ghost fetchRet: int, ghost topology: Topology,
             ghost acquired: seq<GraphArray>, ghost fetchLog: seq<Event>, ghost nodeLog: seq<Event>,
             ghost nodeFd: int)
    modifies k
    ensures ret != 0 ==> videoFdOut == videoFd
    ensures mediaFd < 0 ==> ret == mediaFd && k.trace == old(k.trace) + [Event(Open(Some(mediaPath)), mediaFd, NoOut)]
    ensures mediaFd >= 0 ==>
              k.trace == old(k.trace) + [Event(Open(Some(mediaPath)), mediaFd, NoOut)] + fetchLog + nodeLog +
                         [Event(Close(mediaFd), 0, NoOut)] + Frees(acquired) &&
              FetchOutcome(fetchLog, mediaFd, fetchRet, topology, acquired) &&
              (fetchRet != 0 ==> ret == fetchRet && nodeLog == []) &&
              (fetchRet == 0 ==>
                 match Resolve(topology, MEDIA_ENT_F_PROC_VIDEO_DECODER)
                 case None => ret == -ENODEV && nodeLog == []
                 case Some(route) =>
                   NodeOpened(nodeLog, route.intf.major, route.intf.minor, true, nodeFd) &&
                   (nodeFd >= 0 ==> ret == 0 && videoFdOut == nodeFd) && (nodeFd < 0 ==> ret == nodeFd))
  {
    videoFdOut := videoFd;
    nodeLog, acquired, fetchLog, topology, fetchRet, nodeFd := [], [], [], Topology([], [], [], []), 0, -1;
    var media := k.Call(Open(Some(mediaPath)));
    mediaFd := media;
    if media < 0 {
      return media, videoFdOut, mediaFd, fetchRet, topology, acquired, fetchLog, nodeLog, nodeFd;
    }
    var topo, arrays;
    ret, topo, arrays, fetchLog := FetchTopology(media, k);
    topology, acquired := topo, arrays;
    fetchRet := ret;
    if ret == 0 {
      match Resolve(topo, MEDIA_ENT_F_PROC_VIDEO_DECODER)
      case None =>
        ret := -ENODEV;
      case Some(route) =>
        var fd;
        fd, nodeLog := OpenDevnode(route.intf.major, route.intf.minor, true, k);
        nodeFd := fd;
        if fd < 0 {
          ret := fd;
        } else {
          videoFdOut := fd;
          ret := 0;
        }
    }
    Release(media, arrays, k);
  }

  /* ---- demo_open_media_camera ---- */

  /** The interface, scanned by demo_open_media_camera, opened a video node that captures. */
  ghost predicate Accepted(log: seq<Event>, intf: Interface, fd: int) {
    intf.intfType == MEDIA_INTF_T_V4L_VIDEO && fd >= 0 &&
    |log| == 5 && NodeOpened(log[..4], intf.major, intf.minor, true, fd) &&
    log[4].op == Media(MediaCall.CapabilitiesProbe(fd)) && log[4].ret == 0 && log[4].out.MediaOut? && log[4].out.answer.Caps? &&
    HasFlag(log[4].out.answer.caps, CAP_VIDEO_CAPTURE)
  }

  /**
   * The interface was passed over: not a video node, no device, a failed
   * open (also of a NULL path), a failed probe, or no capture capability.
   * A node that was opened and then passed over is not closed.
   */
  ghost predicate Rejected(log: seq<Event>, intf: Interface) {
    if intf.intfType != MEDIA_INTF_T_V4L_VIDEO then log == []
    else
      var n := if |log| > 0 && log[0].out == MediaOut(Device(true)) then 4 else 1;
      n <= |log| && NodeOpened(log[..n], intf.major, intf.minor, true, NodeFd(log[..n])) &&
      if NodeFd(log[..n]) < 0 then |log| == n
      else |log| == n + 1 && log[n].op == Media(MediaCall.CapabilitiesProbe(NodeFd(log[..n]))) &&
           log[n].out.MediaOut? && log[n].out.answer.Caps? &&
           (log[n].ret != 0 || !HasFlag(log[n].out.answer.caps, CAP_VIDEO_CAPTURE))
  }

  /** One iteration of the scan of demo_open_media_camera. */
  method TryInterface(intf: Interface, k: Kernel) returns (accepted: bool, fd: int, ghost log: seq<Event>)
    modifies k
    ensures k.trace == old(k.trace) + log
    ensures accepted ==> Accepted(log, intf, fd)
    ensures !accepted ==> Rejected(log, intf)
  {
    log := [];
    fd := -1;
    if intf.intfType != MEDIA_INTF_T_V4L_VIDEO {
      return false, fd, log;
    }
    fd, log := OpenDevnode(intf.major, intf.minor, true, k);
    assert log[..|log|] == log;
    if fd < 0 {
      return false, fd, log;
    }
    ghost var nodeLog := log;
    var r, caps := k.CapabilitiesProbe(fd);
    log := log + [Event(Media(MediaCall.CapabilitiesProbe(fd)), r, MediaOut(Caps(caps)))];
    assert log[..4] == nodeLog;
    accepted := r == 0 && HasFlag(caps, CAP_VIDEO_CAPTURE);
  }

  /**
   * The scan of demo_open_media_camera: the first interface accepted, after
   * every interface before it was passed over; -ENODEV when none is.
   */
  method ScanInterfaces(interfaces: seq<Interface>, videoFd: int, k: Kernel)
    returns (ret: int, videoFdOut: int, ghost attempts: seq<seq<Event>>)
    modifies k
    ensures k.trace == old(k.trace) + Concat(attempts)
    ensures |attempts| <= |interfaces|
    ensures forall i | 0 <= i < |attempts| && (ret != 0 || i < |attempts| - 1) :: Rejected(attempts[i], interfaces[i])
    ensures ret == 0 ==> 0 < |attempts| && Accepted(attempts[|attempts| - 1], interfaces[|attempts| - 1], videoFdOut)
    ensures ret != 0 ==> ret == -ENODEV && |attempts| == |interfaces| && videoFdOut == videoFd
  {
    attempts := [];
    videoFdOut := videoFd;
    var found := false;
    var i := 0;
    while i < |interfaces| && !found
      invariant i <= |interfaces| && |attempts| == i
      invariant k.trace == old(k.trace) + Concat(attempts)
      invariant forall j | 0 <= j < i && (!found || j < i - 1) :: Rejected(attempts[j], interfaces[j])
      invariant found ==> 0 < i && Accepted(attempts[i - 1], interfaces[i - 1], videoFdOut)
      invariant !found ==> videoFdOut == videoFd
    {
      var accepted, fd, log := TryInterface(interfaces[i], k);
      ConcatSnoc(attempts, log);
      attempts := attempts + [log];
      if accepted {
        videoFdOut := fd;
        found := true;
      }
      i := i + 1;
    }
    ret := if found then 0 else -ENODEV;
  }

  /**
   * demo_open_media_camera: open the media node, query the graph, require a
   * camera-sensor entity, then take the first video interface whose node
   * opens and reports capture.  `videoFdOut` differs from `videoFd` only on
   * success; no acceptable interface is -ENODEV.
   */
  method OpenMediaCamera(mediaPath: string, videoFd: int, k: Kernel)
    returns (ret: int, videoFdOut: int, ghost mediaFd: int, ghost fetchRet: int, ghost topology: Topology,
             ghost acquired: seq<GraphArray>, ghost fetchLog: seq<Event>, ghost attempts: seq<seq<Event>>)
    modifies k
    ensures ret != 0 ==> videoFdOut == videoFd
    ensures mediaFd < 0 ==> ret == mediaFd && k.trace == old(k.trace) + [Event(Open(Some(mediaPath)), mediaFd, NoOut)]
    ensures mediaFd >= 0 ==>
              k.trace == old(k.trace) + [Event(Open(Some(mediaPath)), mediaFd, NoOut)] + fetchLog + Concat(attempts) +
                         [Event(Close(mediaFd), 0, NoOut)] + Frees(acquired) &&
              FetchOutcome(fetchLog, mediaFd, fetchRet, topology, acquired) &&
              (fetchRet != 0 ==> ret == fetchRet && attempts == []) &&
              (fetchRet == 0 && EntityByFunction(topology, MEDIA_ENT_F_CAM_SENSOR).None? ==>
                 ret == -ENODEV && attempts == []) &&
              (fetchRet == 0 && EntityByFunction(topology, MEDIA_ENT_F_CAM_SENSOR).Some? ==>
                 |attempts| <= |topology.interfaces| &&
                 (forall i | 0 <= i < |attempts| && (ret != 0 || i < |attempts| - 1) ::
                    Rejected(attempts[i], topology.interfaces[i])) &&
                 (ret == 0 ==>
                    0 < |attempts| &&
                    Accepted(attempts[|attempts| - 1], topology.interfaces[|attempts| - 1], videoFdOut)) &&
                 (ret != 0 ==> ret == -ENODEV && |attempts| == |topology.interfaces|))
  {
    videoFdOut := videoFd;
    attempts, acquired, fetchLog, topology, fetchRet := [], [], [], Topology([], [], [], []), 0;
    var media := k.Call(Open(Some(mediaPath)));
    mediaFd := media;
    if media < 0 {
      return media, videoFdOut, mediaFd, fetchRet, topology, acquired, fetchLog, attempts;
    }
    var topo, arrays;
    ret, topo, arrays, fetchLog := FetchTopology(media, k);
    topology, acquired := topo, arrays;
    fetchRet := ret;
    if ret == 0 {
      if EntityByFunction(topo, MEDIA_ENT_F_CAM_SENSOR).None? {
        ret := -ENODEV;
      } else {
        ret, videoFdOut, attempts := ScanInterfaces(topo.interfaces, videoFd, k);
      }
    }
    Release(media, arrays, k);
  }
}
