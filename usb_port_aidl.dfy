/**
 * The AIDL USB port HAL client: the connection to the HAL proxy, the commands
 * that are gated on the proxy being present, the registry of pending
 * data-enable operations, and the inbound HAL callback that translates port
 * status batches and completes data-enable operations.
 *
 * The Binder proxy is an opaque object that records the calls it receives; a
 * completion receiver is an opaque object that records the result codes it is
 * given; the port manager records the batches it is handed.
 */
module UsbPortAidl {
  import opened JavaTypes
  import opened UsbStatusTranslation

  // android.hardware.usb.Status.SUCCESS
  const STATUS_SUCCESS: Int32 := 0
  // UsbOperationInternal result codes
  const USB_OPERATION_SUCCESS: Int32 := 0
  const USB_OPERATION_ERROR_INTERNAL: Int32 := 1
  // UsbManager.USB_HAL_V2_0
  const USB_HAL_V2_0: Int32 := 20

  datatype JavaException = RemoteException | NullPointerException

  /** How a Java method call ends: it returns a value or throws. */
  datatype Completed<+T> = Returned(value: T) | Threw(exception: JavaException)

  /** The AIDL union PortRole: exactly one of its three fields is set. */
  datatype PortRole = PowerRole(powerRole: Int8) | DataRole(dataRole: Int8) | Mode(mode: Int8)

  /** A call on the HAL's Binder object, as it arrives at the HAL. */
  datatype HalCall =
    | LinkToDeath
    | SetCallback
    | QueryPortStatus(operationId: Int64)
    | SwitchRole(portName: string, role: PortRole, operationId: Int64)
    | EnableContaminantPresenceDetection(portName: string, enable: bool, operationId: Int64)
    | EnableUsbData(portName: string, enable: bool, key: Int64)

  /** The remote HAL service behind a Binder proxy; it records every call issued to it. */
  class HalProxy {
    var received: seq<HalCall>
    constructor ()
      ensures received == []
    {
      received := [];
    }
  }

  /** An IUsbOperationInternal receiver; it records every result delivered to it. */
  class OperationCallback {
    var results: seq<Int32>
    constructor ()
      ensures results == []
    {
      results := [];
    }
  }

  /** One port as the HAL reports it (android.hardware.usb.PortStatus). */
  datatype PortStatus = PortStatus(
    portName: string,
    supportedModes: seq<Int8>,
    supportedContaminantProtectionModes: seq<Int8>,
    currentMode: Int8,
    canChangeMode: bool,
    currentPowerRole: Int8,
    canChangePowerRole: bool,
    currentDataRole: Int8,
    canChangeDataRole: bool,
    supportsEnableContaminantPresenceProtection: bool,
    contaminantProtectionStatus: Int8,
    supportsEnableContaminantPresenceDetection: bool,
    contaminantDetectionStatus: Int8,
    usbDataEnabled: bool)

  /** One port as handed to the port manager (RawPortInfo). */
  datatype RawPortInfo = RawPortInfo(
    portId: string,
    supportedModes: bv32,
    supportedContaminantProtectionModes: bv32,
    currentMode: bv32,
    canChangeMode: bool,
    currentPowerRole: Int32,
    canChangePowerRole: bool,
    currentDataRole: Int32,
    canChangeDataRole: bool,
    supportsEnableContaminantPresenceProtection: bool,
    contaminantProtectionStatus: bv32,
    supportsEnableContaminantPresenceDetection: bool,
    contaminantDetectionStatus: Int32,
    usbDataEnabled: bool)

  /** The translation of one reported port: the four translated fields, the rest copied. */
  function TranslatePort(p: PortStatus): RawPortInfo {
    RawPortInfo(p.portName,
                OrFold(p.supportedModes, ToPortMode),
                OrFold(p.supportedContaminantProtectionModes, ToContaminantProtectionStatus),
                ToPortMode(p.currentMode),
                p.canChangeMode,
                p.currentPowerRole,
                p.canChangePowerRole,
                p.currentDataRole,
                p.canChangeDataRole,
                p.supportsEnableContaminantPresenceProtection,
                ToContaminantProtectionStatus(p.contaminantProtectionStatus),
                p.supportsEnableContaminantPresenceDetection,
                p.contaminantDetectionStatus,
                p.usbDataEnabled)
  }

  /** The loop of notifyPortStatusChange that builds the batch, one entry per reported port. */
  method TranslatePorts(currentPortStatus: seq<PortStatus>) returns (newPortInfo: seq<RawPortInfo>)
    ensures |newPortInfo| == |currentPortStatus|
    ensures forall i :: 0 <= i < |currentPortStatus| ==> newPortInfo[i] == TranslatePort(currentPortStatus[i])
    ensures forall i :: 0 <= i < |currentPortStatus| ==> newPortInfo[i].portId == currentPortStatus[i].portName
  {
    newPortInfo := [];
    for i := 0 to |currentPortStatus|
      invariant |newPortInfo| == i
      invariant forall k :: 0 <= k < i ==> newPortInfo[k] == TranslatePort(currentPortStatus[k])
    {
      var current := currentPortStatus[i];
      var modes := ToSupportedModes(current.supportedModes);
      var protectionModes := ToSupportedContaminantProtectionModes(current.supportedContaminantProtectionModes);
      var temp := RawPortInfo(current.portName, modes, protectionModes, ToPortMode(current.currentMode),
                              current.canChangeMode, current.currentPowerRole, current.canChangePowerRole,
                              current.currentDataRole, current.canChangeDataRole,
                              current.supportsEnableContaminantPresenceProtection,
                              ToContaminantProtectionStatus(current.contaminantProtectionStatus),
                              current.supportsEnableContaminantPresenceDetection,
                              current.contaminantDetectionStatus, current.usbDataEnabled);
      newPortInfo := newPortInfo + [temp];
    }
  }

  /**
   * The key enableUsbData dispatches under: unused in the registry; the
   * caller's operationID when that is unused, otherwise the first unused value
   * of the random draws.
   */
  ghost predicate IsDispatchKey(callbacks: map<Int64, OperationCallback>, operationId: Int64,
                                draws: seq<Int32>, key: Int64) {
    && key !in callbacks
    && (operationId !in callbacks ==> key == operationId)
    && (operationId in callbacks ==>
          exists j :: 0 <= j < |draws| && key == draws[j] && forall k :: 0 <= k < j ==> draws[k] in callbacks)
  }

  /** The random source of the key search eventually yields an unused value. */
  predicate DrawsSuffice(callbacks: map<Int64, OperationCallback>, operationId: Int64, draws: seq<Int32>) {
    operationId in callbacks ==> exists j :: 0 <= j < |draws| && draws[j] !in callbacks
  }

  /**
   * The key search of enableUsbData. `draws` stands for the values
   * ThreadLocalRandom.nextInt() returns, in order.
   */
  method ChooseKey(callbacks: map<Int64, OperationCallback>, operationId: Int64, draws: seq<Int32>)
    returns (key: Int64)
    requires DrawsSuffice(callbacks, operationId, draws)
    ensures key !in callbacks
    ensures operationId !in callbacks ==> key == operationId
    ensures operationId in callbacks ==>
              exists j :: 0 <= j < |draws| && key == draws[j] && forall k :: 0 <= k < j ==> draws[k] in callbacks
  {
    key := operationId;
    var n := 0;
    while key in callbacks
      invariant 0 <= n <= |draws|
      invariant n == 0 ==> key == operationId
      invariant n > 0 ==> key == draws[n - 1] && operationId in callbacks
      invariant forall k :: 0 <= k < n - 1 ==> draws[k] in callbacks
      decreases |draws| - n
    {
      assert forall k :: 0 <= k < n ==> draws[k] in callbacks;
      key := draws[n];
      n := n + 1;
    }
  }

  /** Only one position can hold the first draw that is not a key already. */
  lemma FirstFreeDrawUnique(callbacks: map<Int64, OperationCallback>, draws: seq<Int32>, j1: nat, j2: nat)
    requires j1 < |draws| && j2 < |draws|
    requires draws[j1] !in callbacks && draws[j2] !in callbacks
    requires forall k :: 0 <= k < j1 ==> draws[k] in callbacks
    requires forall k :: 0 <= k < j2 ==> draws[k] in callbacks
    ensures j1 == j2
  {
  }

  /** A key choice is a function of the registry, operationID and the draws. */
  lemma DispatchKeyUnique(callbacks: map<Int64, OperationCallback>, operationId: Int64,
                          draws: seq<Int32>, k1: Int64, k2: Int64)
    requires IsDispatchKey(callbacks, operationId, draws, k1)
    requires IsDispatchKey(callbacks, operationId, draws, k2)
    ensures k1 == k2
  {
    if operationId in callbacks {
      var j1 :| 0 <= j1 < |draws| && k1 == draws[j1] && forall k :: 0 <= k < j1 ==> draws[k] in callbacks;
      var j2 :| 0 <= j2 < |draws| && k2 == draws[j2] && forall k :: 0 <= k < j2 ==> draws[k] in callbacks;
      FirstFreeDrawUnique(callbacks, draws, j1, j2);
    }
  }

  /** Records the batches the port manager receives through updatePorts. */
  class PortManager {
    var batches: seq<seq<RawPortInfo>>
    constructor ()
      ensures batches == []
    {
      batches := [];
    }

    method UpdatePorts(newPortInfo: seq<RawPortInfo>)
      modifies this
      ensures batches == old(batches) + [newPortInfo]
    {
      batches := batches + [newPortInfo];
    }
  }

  /**
   * Where the service manager's lookup of the HAL ends: the service is not
   * found, or it is found and the connection steps run until the first one
   * that throws a RemoteException, if any.
   */
  datatype ServiceLookup = NotFound | Found(binder: HalProxy, failure: ConnectFailure)
  datatype ConnectFailure = NoFailure | LinkToDeathFails | SetCallbackFails

  /** The calls a fresh connection issues, up to and including the one that fails. */
  function ConnectCalls(failure: ConnectFailure, transactionId: Int64): seq<HalCall> {
    match failure
    case LinkToDeathFails => [LinkToDeath]
    case SetCallbackFails => [LinkToDeath, SetCallback]
    case NoFailure => [LinkToDeath, SetCallback, QueryPortStatus(transactionId)]
  }

  class UsbPortAidlClient {
    /** mProxy: the HAL proxy, or null when not connected. */
    var proxy: HalProxy?
    /** mTransactionId: the operation id of the status query issued on each connect. */
    var transactionId: Int64
    /** mSystemReady: set once by systemReady(). */
    var systemReady: bool
    /** sCallbacks: pending data-enable operations by dispatch key. */
    var callbacks: map<Int64, OperationCallback>
    const portManager: PortManager

    /** The constructor; it connects immediately. */
    constructor (portManager: PortManager, lookup: ServiceLookup)
      modifies if lookup.Found? then {lookup.binder} else {}
      ensures this.portManager == portManager && !systemReady && callbacks == map[]
      ensures lookup.NotFound? ==> proxy == null && transactionId == 0
      ensures lookup.Found? ==>
                && proxy == lookup.binder
                && transactionId == (if lookup.failure.NoFailure? then 1 else 0)
                && proxy.received == old(lookup.binder.received) + ConnectCalls(lookup.failure, 1)
    {
      this.portManager := portManager;
      proxy := null;
      transactionId := 0;
      systemReady := false;
      callbacks := map[];
      new;
      ConnectToProxy(lookup);
    }

    /** getUsbHalVersion: throws unless a proxy is present. */
    function GetUsbHalVersion(): (r: Completed<Int32>)
      reads this
      ensures r.Threw? <==> proxy == null
      ensures r.Threw? ==> r.exception == RemoteException
      ensures r.Returned? ==> r.value == USB_HAL_V2_0
    {
      if proxy == null then Threw(RemoteException) else Returned(USB_HAL_V2_0)
    }

    method SystemReady()
      modifies this
      ensures systemReady
      ensures proxy == old(proxy) && transactionId == old(transactionId) && callbacks == old(callbacks)
    {
      systemReady := true;
    }

    /**
     * connectToProxy: nothing happens when a proxy is present; otherwise the
     * lookup's proxy is installed and linked, the callback registered, and a
     * status query issued under the next transaction id.
     */
    method ConnectToProxy(lookup: ServiceLookup)
      modifies this, if lookup.Found? then {lookup.binder} else {}
      ensures systemReady == old(systemReady) && callbacks == old(callbacks)
      ensures old(proxy) != null || lookup.NotFound? ==>
                proxy == old(proxy) && transactionId == old(transactionId)
                && (lookup.Found? ==> lookup.binder.received == old(lookup.binder.received))
      ensures old(proxy) == null && lookup.Found? ==>
                && proxy == lookup.binder
                && transactionId == (if lookup.failure.NoFailure? then IncrementInt64(old(transactionId))
                                     else old(transactionId))
                && proxy.received == old(lookup.binder.received) + ConnectCalls(lookup.failure, transactionId)
    {
      if proxy != null {
        return;
      }
      if lookup.NotFound? {
        return;
      }
      var binder := lookup.binder;
      proxy := binder;
      binder.received := binder.received + [LinkToDeath];
      if lookup.failure == LinkToDeathFails {
        return;
      }
      binder.received := binder.received + [SetCallback];
      if lookup.failure == SetCallbackFails {
        return;
      }
      transactionId := IncrementInt64(transactionId);
      binder.received := binder.received + [HalCall.QueryPortStatus(transactionId)];
    }

    /** serviceDied: drop the dead proxy, then reconnect. */
    method ServiceDied(lookup: ServiceLookup)
      modifies this, if lookup.Found? then {lookup.binder} else {}
      ensures systemReady == old(systemReady) && callbacks == old(callbacks)
      ensures lookup.NotFound? ==> proxy == null && transactionId == old(transactionId)
      ensures lookup.Found? ==>
                && proxy == lookup.binder
                && transactionId == (if lookup.failure.NoFailure? then IncrementInt64(old(transactionId))
                                     else old(transactionId))
                && proxy.received == old(lookup.binder.received) + ConnectCalls(lookup.failure, transactionId)
    {
      proxy := null;
      ConnectToProxy(lookup);
    }

    method EnableContaminantPresenceDetection(portName: string, enable: bool, operationId: Int64)
      modifies proxy
      ensures proxy != null ==>
                proxy.received == old(proxy.received) + [HalCall.EnableContaminantPresenceDetection(portName, enable, operationId)]
    {
      if proxy == null {
        return;
      }
      proxy.received := proxy.received + [HalCall.EnableContaminantPresenceDetection(portName, enable, operationId)];
    }

    method QueryPortStatus(operationId: Int64)
      modifies proxy
      ensures proxy != null ==> proxy.received == old(proxy.received) + [HalCall.QueryPortStatus(operationId)]
    {
      if proxy == null {
        return;
      }
      proxy.received := proxy.received + [HalCall.QueryPortStatus(operationId)];
    }

    /** switchMode: the role sent has only its mode set, to the mode narrowed to a byte. */
    method SwitchMode(portId: string, newMode: Int32, operationId: Int64)
      modifies proxy
      ensures proxy != null ==>
                proxy.received == old(proxy.received) + [SwitchRole(portId, Mode(NarrowToInt8(newMode)), operationId)]
    {
      if proxy == null {
        return;
      }
      var newRole := Mode(NarrowToInt8(newMode));
      proxy.received := proxy.received + [SwitchRole(portId, newRole, operationId)];
    }

    /** switchPowerRole: the role sent has only its power role set. */
    method SwitchPowerRole(portId: string, newPowerRole: Int32, operationId: Int64)
      modifies proxy
      ensures proxy != null ==>
                proxy.received
                == old(proxy.received) + [SwitchRole(portId, PowerRole(NarrowToInt8(newPowerRole)), operationId)]
    {
      if proxy == null {
        return;
      }
      var newRole := PowerRole(NarrowToInt8(newPowerRole));
      proxy.received := proxy.received + [SwitchRole(portId, newRole, operationId)];
    }

    /** switchDataRole: the role sent has only its data role set. */
    method SwitchDataRole(portId: string, newDataRole: Int32, operationId: Int64)
      modifies proxy
      ensures proxy != null ==>
                proxy.received
                == old(proxy.received) + [SwitchRole(portId, DataRole(NarrowToInt8(newDataRole)), operationId)]
    {
      if proxy == null {
        return;
      }
      var newRole := DataRole(NarrowToInt8(newDataRole));
      proxy.received := proxy.received + [SwitchRole(portId, newRole, operationId)];
    }

    /**
     * enableUsbData, with the null-proxy path corrected. `draws` are the
     * random values the key search may use and `dispatchFails` says whether
     * the HAL call throws a RemoteException. The result code is recorded as
     * delivered even when the receiver's onOperationComplete throws; no path's
     * outcome depends on that, so unlike EnableUsbDataAsWritten this method
     * takes no parameter for it. On the null-proxy path the registry is left
     * as it was.
     */
    method EnableUsbData(portName: Option<string>, enable: bool, operationId: Int64,
                         callback: OperationCallback?, draws: seq<Int32>, dispatchFails: bool)
      returns (r: Completed<bool>)
      requires proxy != null ==> DrawsSuffice(callbacks, operationId, draws)
      modifies this`callbacks, proxy, callback
      ensures portName.None? || callback == null ==>
                r == Threw(NullPointerException) && callbacks == old(callbacks)
                && (proxy != null ==> proxy.received == old(proxy.received))
                && (callback != null ==> callback.results == old(callback.results))
      ensures portName.Some? && callback != null && proxy == null ==>
                r == Returned(false) && callbacks == old(callbacks)
                && callback.results == old(callback.results) + [USB_OPERATION_ERROR_INTERNAL]
      ensures portName.Some? && callback != null && proxy != null ==>
                exists key ::
                  && IsDispatchKey(old(callbacks), operationId, draws, key)
                  && proxy.received == old(proxy.received) + [HalCall.EnableUsbData(portName.value, enable, key)]
                  && (dispatchFails ==>
                        r == Returned(false) && callbacks == old(callbacks)
                        && callback.results == old(callback.results) + [USB_OPERATION_ERROR_INTERNAL])
                  && (!dispatchFails ==>
                        r == Returned(true) && callbacks == old(callbacks)[key := callback]
                        && callback.results == old(callback.results))
    {
      if portName.None? || callback == null {
        return Threw(NullPointerException);
      }
      if proxy == null {
        callback.results := callback.results + [USB_OPERATION_ERROR_INTERNAL];
        return Returned(false);
      }
      var key := ChooseKey(callbacks, operationId, draws);
      var before := callbacks;
      callbacks := callbacks[key := callback];
      proxy.received := proxy.received + [HalCall.EnableUsbData(portName.value, enable, key)];
      if dispatchFails {
        callback.results := callback.results + [USB_OPERATION_ERROR_INTERNAL];
        callbacks := callbacks - {key};
        assert callbacks == before;
        return Returned(false);
      }
      return Returned(true);
    }

    /**
     * enableUsbData as the source writes it. `receiverThrows` says whether the
     * receiver's onOperationComplete throws a RemoteException. On the
     * dispatch-failure path a throwing receiver skips the inner removal, but
     * the outer handler removes the same key, so only the null-proxy path
     * differs from EnableUsbData: there the outer handler removes the entry
     * under operationID, which this call never added.
     */
    method EnableUsbDataAsWritten(portName: Option<string>, enable: bool, operationId: Int64,
                                  callback: OperationCallback?, draws: seq<Int32>, dispatchFails: bool,
                                  receiverThrows: bool)
      returns (r: Completed<bool>)
      requires proxy != null ==> DrawsSuffice(callbacks, operationId, draws)
      modifies this`callbacks, proxy, callback
      ensures portName.None? || callback == null ==>
                r == Threw(NullPointerException) && callbacks == old(callbacks)
                && (proxy != null ==> proxy.received == old(proxy.received))
                && (callback != null ==> callback.results == old(callback.results))
      ensures portName.Some? && callback != null && proxy == null ==>
                r == Returned(false)
                && callbacks == NullProxyRegistryAsWritten(old(callbacks), operationId, receiverThrows)
                && callback.results == old(callback.results) + [USB_OPERATION_ERROR_INTERNAL]
      ensures portName.Some? && callback != null && proxy == null && receiverThrows && operationId in old(callbacks) ==>
                operationId !in callbacks
      ensures portName.Some? && callback != null && proxy != null ==>
                exists key ::
                  && IsDispatchKey(old(callbacks), operationId, draws, key)
                  && proxy.received == old(proxy.received) + [HalCall.EnableUsbData(portName.value, enable, key)]
                  && (dispatchFails ==>
                        r == Returned(false) && callbacks == old(callbacks)
                        && callback.results == old(callback.results) + [USB_OPERATION_ERROR_INTERNAL])
                  && (!dispatchFails ==>
                        r == Returned(true) && callbacks == old(callbacks)[key := callback]
                        && callback.results == old(callback.results))
    {
      if portName.None? || callback == null {
        return Threw(NullPointerException);
      }
      var key := operationId;
      if proxy == null {
        callback.results := callback.results + [USB_OPERATION_ERROR_INTERNAL];
        if receiverThrows {
          callbacks := callbacks - {key};
        }
        return Returned(false);
      }
      key := ChooseKey(callbacks, operationId, draws);
      var before := callbacks;
      callbacks := callbacks[key := callback];
      proxy.received := proxy.received + [HalCall.EnableUsbData(portName.value, enable, key)];
      if dispatchFails {
        callback.results := callback.results + [USB_OPERATION_ERROR_INTERNAL];
        // With a throwing receiver the outer handler removes the same key.
        callbacks := callbacks - {key};
        assert callbacks == before;
        return Returned(false);
      }
      return Returned(true);
    }
  }

  /**
   * The registry after enableUsbData as written, on the null-proxy path: when
   * the receiver throws a RemoteException, the outer handler removes the entry
   * under `key`, which is still the caller's operationID at that point.
   */
  function NullProxyRegistryAsWritten<V>(callbacks: map<Int64, V>, operationId: Int64, receiverThrows: bool)
    : (r: map<Int64, V>)
    ensures !receiverThrows ==> r == callbacks
    ensures receiverThrows ==> r.Keys == callbacks.Keys - {operationId}
    ensures forall k :: k in r ==> k in callbacks && r[k] == callbacks[k]
  {
    if receiverThrows then callbacks - {operationId} else callbacks
  }

  /**
   * The as-written path loses an entry it never added: an earlier operation
   * pending under the same id is dropped, so its completion can no longer be
   * delivered.
   */
  lemma NullProxyDropsPendingEntry()
    ensures var pending := map[7 := "earlier operation"];
            7 in pending && 7 !in NullProxyRegistryAsWritten(pending, 7, true)
  {
  }

  /** The inbound HAL callback (HALCallback), bound to one client and one port manager. */
  class HalCallback {
    const client: UsbPortAidlClient
    const portManager: PortManager

    constructor (client: UsbPortAidlClient, portManager: PortManager)
      requires portManager == client.portManager
      ensures this.client == client && this.portManager == portManager
      ensures this.portManager == this.client.portManager
    {
      this.client := client;
      this.portManager := portManager;
    }

    /**
     * notifyPortStatusChange: nothing is forwarded before systemReady or on a
     * failed enquiry; otherwise exactly one batch, translated in order.
     */
    method NotifyPortStatusChange(currentPortStatus: seq<PortStatus>, retval: Int32)
      modifies portManager
      ensures !client.systemReady || retval != STATUS_SUCCESS ==> portManager.batches == old(portManager.batches)
      ensures client.systemReady && retval == STATUS_SUCCESS ==>
                exists batch ::
                  && portManager.batches == old(portManager.batches) + [batch]
                  && |batch| == |currentPortStatus|
                  && forall i :: 0 <= i < |batch| ==> batch[i] == TranslatePort(currentPortStatus[i])
    {
      if !client.systemReady {
        return;
      }
      if retval != STATUS_SUCCESS {
        return;
      }
      var newPortInfo := TranslatePorts(currentPortStatus);
      portManager.UpdatePorts(newPortInfo);
    }

    /**
     * notifyEnableUsbDataStatus: the registered receiver gets SUCCESS exactly
     * when the HAL reports success, ERROR_INTERNAL otherwise; the entry stays
     * registered. An unknown key is a NullPointerException.
     */
    method NotifyEnableUsbDataStatus(portName: string, enable: bool, retval: Int32, operationId: Int64)
      returns (r: Completed<()>)
      modifies if operationId in client.callbacks then {client.callbacks[operationId]} else {}
      ensures operationId !in client.callbacks ==> r == Threw(NullPointerException)
      ensures operationId in client.callbacks ==>
                r == Returned(()) &&
                client.callbacks[operationId].results
                == old(client.callbacks[operationId].results)
                   + [if retval == STATUS_SUCCESS then USB_OPERATION_SUCCESS else USB_OPERATION_ERROR_INTERNAL]
    {
      if operationId !in client.callbacks {
        return Threw(NullPointerException);
      }
      var callback := client.callbacks[operationId];
      callback.results := callback.results
                          + [if retval == STATUS_SUCCESS then USB_OPERATION_SUCCESS else USB_OPERATION_ERROR_INTERNAL];
      return Returned(());
    }
  }
}
