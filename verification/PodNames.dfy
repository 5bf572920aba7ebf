// The names and mount points the adaptation adds, and why they never collide with each other.
module PodNames {
  import opened Common
  import opened Mounts
  import opened PodModel

  // A volume added by the adaptation.
  datatype Injected =
    | Dev(device: Device)
    | ImportSrc(slug: string)
    | PasstBin | VmState | PrivateLibvirt | PrivateLibvirtQemu

  function NameOf(n: Injected): string {
    match n
    case Dev(d) => DeviceName(d)
    case ImportSrc(slug) => "import-src-" + slug
    case PasstBin => "passt-bin"
    case VmState => VM_STATE
    case PrivateLibvirt => "private-libvirt"
    case PrivateLibvirtQemu => "private-libvirt-qemu"
  }

  // -------- telling the names apart --------

  // The family a name belongs to, from a few characters and its length.
  function Family(s: string): nat {
    if |s| < 3 then 99
    else if s[0] == 'k' then 0
    else if s[0] == 't' then 1
    else if s[0] == 'c' then 2
    else if s[0] == 'v' then (if s[1] == 'h' then 3 else if s[1] == 'm' then 4 else if |s| == 4 then 5 else 6)
    else if s[0] == 'd' then (if |s| > 4 && s[4] == 'c' then 7 else 8)
    else if s[0] == 'i' then 9
    else if s[0] == 'p' then (if s[1] == 'a' then 10 else if |s| == 15 then 11 else 12)
    else NvidiaFamily(s)
  }

  function NvidiaFamily(s: string): nat {
    if |s| < 7 then 99
    else if s[6] == 'c' then 20
    else if s[6] != '-' then 21
    else if |s| == 10 then 22
    else if |s| == 14 then 23
    else 24
  }

  function FamilyOf(n: Injected): nat {
    match n
    case Dev(d) => DeviceFamily(d)
    case ImportSrc(_) => 9
    case PasstBin => 10
    case VmState => 4
    case PrivateLibvirt => 11
    case PrivateLibvirtQemu => 12
  }

  function DeviceFamily(d: Device): nat {
    match d
    case Kvm => 0
    case Tun => 1
    case VhostNet => 3
    case Cgroup => 2
    case Nvidia(_) => 21
    case NvidiaCtl => 20
    case NvidiaUvm => 22
    case NvidiaUvmTools => 24
    case NvidiaModeset => 23
    case DriCard(_) => 7
    case DriRender(_) => 8
    case Vfio => 5
    case VfioGroup(_) => 6
  }

  lemma DeviceFamilyIs(d: Device)
    ensures Family(DeviceName(d)) == DeviceFamily(d)
  {
    match d {
      case Nvidia(i) => assert DeviceName(d)[6] == Decimal(i)[0];
      case _ =>
    }
  }

  lemma FamilyIs(n: Injected)
    ensures Family(NameOf(n)) == FamilyOf(n)
  {
    if n.Dev? {
      DeviceFamilyIs(n.device);
    }
  }

  lemma SuffixIs(prefix: string, a: string, b: string)
    requires prefix + a == prefix + b
    ensures a == b
  {
    assert (prefix + a)[|prefix|..] == a && (prefix + b)[|prefix|..] == b;
  }

  lemma DeviceNameInjective(a: Device, b: Device)
    requires DeviceName(a) == DeviceName(b)
    ensures a == b
  {
    DeviceFamilyIs(a);
    DeviceFamilyIs(b);
    if a.Nvidia? {
      SuffixIs("nvidia", Decimal(a.index), Decimal(b.index));
      DecimalInjective(a.index, b.index);
    } else if a.DriCard? {
      SuffixIs("dri-card", Decimal(a.index), Decimal(b.index));
      DecimalInjective(a.index, b.index);
    } else if a.DriRender? {
      SuffixIs("dri-render", Decimal(a.index), Decimal(b.index));
      DecimalInjective(a.index, b.index);
    } else if a.VfioGroup? {
      SuffixIs("vfio-group-", a.group, b.group);
    }
  }

  // No two added volumes share a name, whatever the GPU indices, groups and slugs.
  lemma NameInjective(a: Injected, b: Injected)
    requires NameOf(a) == NameOf(b)
    ensures a == b
  {
    FamilyIs(a);
    FamilyIs(b);
    if a.Dev? && b.Dev? {
      DeviceNameInjective(a.device, b.device);
    } else if a.ImportSrc? {
      SuffixIs("import-src-", a.slug, b.slug);
    }
  }

  // -------- telling the mount points apart --------

  // A group that would be mounted over /dev/vfio/vfio; IOMMU groups are numbers.
  predicate IsVfioNode(d: Device) {
    d == VfioGroup("vfio")
  }

  function PathKind(p: Path): (nat, nat)
    requires |p| > 1
  {
    (|p|, if p[0] == "sys" then 0
          else if |p| == 2 then Family(p[1])
          else if p[1] == "net" then 30
          else if p[1] == "vfio" then 31
          else if |p[2]| > 0 && p[2][0] == 'c' then 32 else 33)
  }

  function DevicePathKind(d: Device): (nat, nat) {
    match d
    case Cgroup => (3, 0)
    case Tun => (3, 30)
    case Vfio => (3, 31)
    case VfioGroup(_) => (3, 31)
    case DriCard(_) => (3, 32)
    case DriRender(_) => (3, 33)
    case _ => (2, DeviceFamily(d))
  }

  lemma DevicePathKindIs(d: Device)
    ensures PathKind(DevicePath(d)) == DevicePathKind(d)
  {
    DeviceFamilyIs(d);
  }

  lemma DevicePathInjective(a: Device, b: Device)
    requires DevicePath(a) == DevicePath(b) && !IsVfioNode(a) && !IsVfioNode(b)
    ensures a == b
  {
    DevicePathKindIs(a);
    DevicePathKindIs(b);
    match a {
      case Nvidia(i) =>
        SuffixIs("nvidia", Decimal(i), Decimal(b.index));
        DecimalInjective(i, b.index);
      case DriCard(i) =>
        assert DevicePath(a)[2] == DevicePath(b)[2];
        SuffixIs("card", Decimal(i), Decimal(b.index));
        DecimalInjective(i, b.index);
      case DriRender(i) =>
        assert DevicePath(a)[2] == DevicePath(b)[2];
        SuffixIs("renderD", Decimal(128 + i), Decimal(128 + b.index));
        DecimalInjective(128 + i, 128 + b.index);
      case Vfio => assert DevicePath(a)[2] == DevicePath(b)[2];
      case VfioGroup(g) => assert DevicePath(a)[2] == DevicePath(b)[2];
      case _ =>
    }
  }

  // No device node lies above another.
  lemma DevicePathsUnrelated(a: Device, b: Device)
    ensures !(DevicePath(a) < DevicePath(b))
  {
    DevicePathKindIs(a);
    DevicePathKindIs(b);
  }
}
