/** The walk as it runs: one path, one set of objects seen and one list collected, shared by every
    level of the recursion. */
module Ocp1Walker {
  import opened Bytes
  import opened Ocp1Enumerate
  import opened Ocp1Members
  import opened Ocp1Value
  import opened Wrappers

  class Walker {
    const device: Device
    var asked: nat
    var path: seq<Role>
    var seen: set<u32>
    var out: seq<Found>

    constructor (device: Device, root: u32)
      ensures this.device == device && path == [] && State() == Start(root)
    {
      this.device := device;
      asked, path, seen, out := 0, [], {root}, [];
    }

    ghost function State(): Trail
      reads this
    {
      Trail(asked, seen, out)
    }

    method Ask(ono: u32, query: Query) returns (reply: Reply)
      modifies `asked
      ensures reply == device(old(asked), ono, query) && asked == old(asked) + 1
    {
      reply := device(asked, ono, query);
      asked := asked + 1;
    }

    method GetMembers(container: u32) returns (members: Option<seq<Member>>)
      modifies `asked
      ensures (members, asked) == TryMembers(device, old(asked), container, GET_MEMBERS_CANDIDATES)
    {
      var k := 0;
      while k < |GET_MEMBERS_CANDIDATES|
        invariant 0 <= k <= |GET_MEMBERS_CANDIDATES|
        invariant TryMembers(device, asked, container, GET_MEMBERS_CANDIDATES[k..])
                  == TryMembers(device, old(asked), container, GET_MEMBERS_CANDIDATES)
      {
        assert GET_MEMBERS_CANDIDATES[k..][1..] == GET_MEMBERS_CANDIDATES[k + 1..];
        var reply := Ask(container, Query.GetMembers(GET_MEMBERS_CANDIDATES[k]));
        match reply {
          case Lost => return None;
          case Answered(status, params) =>
            if status == 0 {
              var ms := Parse(params);
              return Some(ms);
            }
            if status != NOT_IMPLEMENTED && status != BAD_METHOD {
              return None;
            }
        }
        k := k + 1;
      }
      return None;
    }

    method ClassOf(ono: u32) returns (cls: Option<ClassId>)
      modifies `asked
      ensures cls == Ocp1Enumerate.ClassOf(device, old(asked), ono) && asked == old(asked) + 1
    {
      var reply := Ask(ono, GetClass);
      match reply {
        case Lost => return None;
        case Answered(status, params) =>
          if status != 0 {
            return None;
          }
          var r := new Reader(params);
          var fields := r.ListOfU16();
          if fields.Err? {
            return None;
          }
          var version := r.U32();
          return Some(ClassId(fields.value, if version.Ok? then version.value else 1));
      }
    }

    method RoleOf(ono: u32) returns (role: Role)
      modifies `asked
      ensures role == Ocp1Enumerate.RoleOf(device, old(asked), ono) && asked == old(asked) + 1
    {
      var reply := Ask(ono, GetRole);
      match reply {
        case Lost => return Unnamed(ono);
        case Answered(status, params) =>
          if status != 0 {
            return Unnamed(ono);
          }
          var r := new Reader(params);
          var text := r.Bytes();
          return if text.Ok? then Named(text.value) else Unnamed(ono);
      }
    }

    /** Follows one block, `path` naming the containers down to it - and again afterwards. */
    method Walk(container: u32, depth: nat)
      modifies this
      ensures State() == Ocp1Enumerate.Walk(device, old(State()), container, old(path), depth)
      ensures path == old(path)
      decreases MAX_DEPTH - depth, 1
    {
      if depth >= MAX_DEPTH || |out| >= MAX_OBJECTS {
        return;
      }
      var members := GetMembers(container);
      if members.None? {
        return;
      }
      ghost var start := State();
      var k := 0;
      while k < |members.value|
        invariant 0 <= k <= |members.value| && path == old(path)
        invariant WalkMembers(device, State(), members.value[k..], path, depth)
                  == WalkMembers(device, start, members.value, path, depth)
      {
        if |out| >= MAX_OBJECTS {
          return;
        }
        assert members.value[k..][1..] == members.value[k + 1..];
        Visit(members.value[k], depth);
        k := k + 1;
      }
    }

    method Visit(m: Member, depth: nat)
      requires depth < MAX_DEPTH
      modifies this
      ensures State() == WalkMember(device, old(State()), m, old(path), depth)
      ensures path == old(path)
      decreases MAX_DEPTH - depth, 0
    {
      hide Ocp1Enumerate.ClassOf, Ocp1Enumerate.RoleOf, TryMembers, ParseClass;
      if m.ono in seen {
        return;
      }
      seen := seen + {m.ono};
      var cls := m.cls;
      if cls.None? {
        cls := ClassOf(m.ono);
        if cls.None? {
          return;
        }
      }
      var role := RoleOf(m.ono);
      if cls.value.IsBlock() {
        path := path + [role];
        Walk(m.ono, depth + 1);
        path := path[..|path| - 1];
      } else {
        out := out + [Found(m.ono, cls.value, role, path)];
      }
    }
  }

  method EnumerateFrom(device: Device, root: u32) returns (out: seq<Found>)
    ensures out == Enumerate(device, root)
  {
    var w := new Walker(device, root);
    w.Walk(root, 0);
    out := w.out;
  }
}
