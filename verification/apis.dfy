/** Constants and enumerations shared by the host agent and the control
    plane (pkg/apis/compute/pod.go, pkg/apis/container.go). */
module Apis {

  /** Container status values. The first fourteen are the
      `CONTAINER_STATUS_*` strings ("creating", "create_failed", "starting",
      "start_failed", "stopping", "stop_failed", "sync_status",
      "sync_status_failed", "unknown", "created", "exited", "running",
      "deleting", "delete_failed"); `PullingImage` is
      `CONTAINER_STATUS_PULLING_IMAGE`, which the control plane sets while
      an image is pulled (its string is defined outside this model).
      `VmStarting` and
      `VmStartFailed` are the guest statuses `VM_STARTING` and
      `VM_START_FAILED` that the container create task writes; they are
      kept as values of their own. */
  datatype ContainerStatus =
    | Creating | CreateFailed
    | Starting | StartFailed
    | Stopping | StopFailed
    | SyncStatus | SyncStatusFailed
    | Unknown | Created | Exited | Running
    | Deleting | DeleteFailed
    | PullingImage
    | VmStarting | VmStartFailed

  /** Image pull policies (`apis.ImagePullPolicy*`). */
  const IMAGE_PULL_POLICY_ALWAYS: string := "Always"
  const IMAGE_PULL_POLICY_IF_NOT_PRESENT: string := "IfNotPresent"

  /** Port-mapping protocols of a pod (`PodPortMappingProtocol*`). */
  const PROTOCOL_TCP: string := "tcp"
  const PROTOCOL_UDP: string := "udp"
  const PROTOCOL_SCTP: string := "sctp"

  /** Metadata keys under which the CRI sandbox id and config are stored. */
  const POD_METADATA_CRI_ID: string := "cri_id"
  const POD_METADATA_CRI_CONFIG: string := "cri_config"

  /** Hypervisor names. */
  const HYPERVISOR_KVM: string := "kvm"
  const HYPERVISOR_POD: string := "pod"

  /** The type tag of a container device. The three named tags are compared
      by identity only; every other tag is carried as its string. */
  datatype DeviceType =
    | HostDeviceType          // CONTAINER_DEV_HOST
    | LocalRawType            // CONTAINER_STORAGE_LOCAL_RAW
    | CphAospBinderType       // ContainerDeviceTypeCphASOPBinder
    | OtherDeviceType(name: string)

  /** `hostapi.ContainerDevice`: a device requested for a container. */
  datatype ContainerDevice = ContainerDevice(
    isolatedDeviceId: string,
    deviceType: DeviceType,
    path: string,
    addr: string,
    containerPath: string,
    permissions: string,
    diskId: string)
}
