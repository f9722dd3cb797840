/**
 * The ERP motor context of the client (client/src/contexts/SoeMotorContext.tsx):
 * which ERP back end ("plus" or "erpnext") the SOE screens talk to, remembered
 * in two local-storage keys, and the API URL chosen for it.  Local storage is
 * a field of the provider; React state and re-rendering are not modelled.
 */
module SoeMotor {
  import opened Wrappers

  const MotorKey: string := "arcadia_soe_motor"
  const ProfileKey: string := "arcadia_erp_profile"
  const Plus: string := "plus"
  const ERPNext: string := "erpnext"
  const PlusApi: string := "/plus/api"

  /** `getItem(key)`: the stored string, or none. */
  function GetItem(storage: map<string, string>, key: string): Option<string> {
    if key in storage then Some(storage[key]) else None
  }

  /**
   * The motor on mount: the first non-empty of the two stored values, else `plus`; the stored
   * text is taken as it is, without checking that it names a motor.
   */
  function InitialMotor(storage: map<string, string>): (m: string)
    ensures m != ""
    ensures GetItem(storage, MotorKey).GetOr("") != "" ==> m == storage[MotorKey]
    ensures GetItem(storage, MotorKey).GetOr("") == "" && GetItem(storage, ProfileKey).GetOr("") != "" ==>
      m == storage[ProfileKey]
    ensures GetItem(storage, MotorKey).GetOr("") == "" && GetItem(storage, ProfileKey).GetOr("") == "" ==> m == Plus
  {
    var saved := if GetItem(storage, MotorKey).GetOr("") != "" then storage[MotorKey] else GetItem(storage, ProfileKey).GetOr("");
    if saved != "" then saved else Plus
  }

  /** `usePlus` and `useERPNext`. */
  function Flags(motor: string): (flags: (bool, bool))
    ensures !(flags.0 && flags.1)
    ensures flags.0 <==> motor == Plus
    ensures flags.1 <==> motor == ERPNext
  {
    (motor == Plus, motor == ERPNext)
  }

  /** `getApiUrl`: Plus's proxied API, else the ERPNext path when given and non-empty, else the local path. */
  function GetApiUrl(motor: string, localPath: string, plusPath: string, erpnextPath: Option<string>): (url: string)
    ensures motor == Plus ==> url == PlusApi + plusPath
    ensures motor == ERPNext && erpnextPath.GetOr("") != "" ==> url == erpnextPath.value
    ensures motor != Plus && !(motor == ERPNext && erpnextPath.GetOr("") != "") ==> url == localPath
  {
    var (usePlus, useERPNext) := Flags(motor);
    if usePlus then PlusApi + plusPath
    else if useERPNext && erpnextPath.Some? && erpnextPath.value != "" then erpnextPath.value
    else localPath
  }

  /** What the context hands to its consumers (`profile` is the motor under another name). */
  datatype ContextValue = ContextValue(motor: string, usePlus: bool, useERPNext: bool, profile: string)

  class SoeMotorProvider {
    var motor: string
    var storage: map<string, string>

    constructor (storage: map<string, string>)
      ensures this.storage == storage && motor == InitialMotor(storage)
    {
      this.storage := storage;
      motor := InitialMotor(storage);
    }

    function Value(): (v: ContextValue)
      reads this
      ensures v.motor == motor && v.profile == motor
      ensures (v.usePlus, v.useERPNext) == Flags(motor)
    {
      var flags := Flags(motor);
      ContextValue(motor, flags.0, flags.1, motor)
    }

    /** `setMotor` (also `setProfile`): the state and both storage keys take the new motor. */
    method SetMotor(newMotor: string)
      modifies this
      ensures motor == newMotor
      ensures storage == old(storage)[MotorKey := newMotor][ProfileKey := newMotor]
    {
      motor := newMotor;
      storage := storage[MotorKey := newMotor];
      storage := storage[ProfileKey := newMotor];
    }
  }

  /** A non-empty motor written by `setMotor` is the one a later mount starts with. */
  lemma SetMotorPersists(storage: map<string, string>, newMotor: string)
    requires newMotor != ""
    ensures InitialMotor(storage[MotorKey := newMotor][ProfileKey := newMotor]) == newMotor
  {
    var after := storage[MotorKey := newMotor][ProfileKey := newMotor];
    assert MotorKey != ProfileKey;
    assert GetItem(after, MotorKey) == Some(newMotor);
  }

  const OutsideProvider: string := "useSoeMotor must be used within SoeMotorProvider"

  /** `useSoeMotor`: the context value, or the error it throws outside a provider. */
  function UseSoeMotor(context: Option<ContextValue>): (r: Result<ContextValue, string>)
    ensures r.Ok? <==> context.Some?
    ensures r.Ok? ==> r.value == context.value
    ensures r.Err? ==> r.error == OutsideProvider
  {
    if context.None? then Err(OutsideProvider) else Ok(context.value)
  }
}
