/** The answers the DLMS server host gives the protocol engine about access:
    the attribute access table, the constant method/target answers and the
    authentication check. None of them reads any state. */
module Policy {
  import opened Common
  import opened Directory
  import Meter

  /** Which of the meter's two associations a request arrives on. */
  datatype AssociationView = PublicView | PrivilegedView

  /** The part of an access query the server looks at: the target's class
      and the attribute index, together with the association in use. */
  datatype AttributeQuery = AttributeQuery(target: Kind, index: int, association: AssociationView)

  /** Version-3 attribute access modes (request and response protection
      flags are not distinguished here). */
  datatype AccessMode3 = NoAccess3 | Read3 | Write3 | ReadWrite3

  datatype MethodAccessMode = NoMethodAccess | MethodAccess | AuthenticatedMethodAccess

  datatype MethodAccessMode3 = NoMethodAccess3 | MethodAccess3

  /** The engine's verdict on an authentication attempt. */
  datatype SourceDiagnostic = Accepted | AuthenticationFailure

  /** The attribute access table, first match wins: the value attribute of
      registers, clocks and association objects is readable, every attribute
      of a profile is readable, the value of a Data object is read-write, and
      everything else is denied. The association in use is not consulted. */
  function GetAttributeAccess(q: AttributeQuery): (r: AccessMode)
    ensures r == Read <==>
      (q.index == 2 && q.target in {Register, Clock, AssociationLN}) || q.target == ProfileGeneric
    ensures r == ReadWrite <==> q.target == Data && q.index == 2
    ensures r == NoAccess <==>
      (q.target == SecuritySetup || q.index != 2) && q.target != ProfileGeneric
    ensures r != Write
  {
    if q.target == Register && q.index == 2 then Read
    else if q.target == Clock && q.index == 2 then Read
    else if q.target == AssociationLN && q.index == 2 then Read
    else if q.target == ProfileGeneric then Read
    else if q.target == Data && q.index == 2 then ReadWrite
    else assert q.index == 2 ==> q.target.SecuritySetup?; NoAccess
  }

  /** The answer is the same on either association, so the privileged view
      never grants less than the public one. */
  lemma AccessIgnoresAssociation(target: Kind, index: int)
    ensures GetAttributeAccess(AttributeQuery(target, index, PublicView))
         == GetAttributeAccess(AttributeQuery(target, index, PrivilegedView))
  {
  }

  /** Attribute 1 (the logical name) of every class but the profile, and
      every attribute of the security setup, are denied by the table. In
      particular the directory declares the counter's attribute 1 Read, and
      the table answers NoAccess for it; only attribute 2 of the counter and
      of the profile agree with what the directory declares. */
  lemma TableVersusDeclared(today: int, view: AssociationView)
    ensures var d := BuiltDirectory(today);
      && AttributeAt(d[5], 1).access == Some(Read)
      && GetAttributeAccess(AttributeQuery(d[5].kind, 1, view)) == NoAccess
      && (forall i :: 0 <= i < |d| && AttributeAt(d[i], 2).access.Some? ==>
            GetAttributeAccess(AttributeQuery(d[i].kind, 2, view)) == AttributeAt(d[i], 2).access.value)
      && (forall index :: GetAttributeAccess(AttributeQuery(d[7].kind, index, view)) == NoAccess)
  {
    var d := BuiltDirectory(today);
    forall i | 0 <= i < |d| && AttributeAt(d[i], 2).access.Some?
      ensures GetAttributeAccess(AttributeQuery(d[i].kind, 2, view)) == AttributeAt(d[i], 2).access.value
    {
      assert i == 5 || i == 6;
    }
  }

  /** Version-3 attribute access: always Read. */
  function GetAttributeAccess3(q: AttributeQuery): (r: AccessMode3)
  {
    Read3
  }

  /** Method access: always allowed. */
  function GetMethodAccess(target: Kind, methodIndex: int): (r: MethodAccessMode)
  {
    MethodAccess
  }

  /** Version-3 method access: always allowed. */
  function GetMethodAccess3(target: Kind, methodIndex: int): (r: MethodAccessMode3)
  {
    MethodAccess3
  }

  /** Every server address is this server's, whoever the client is. */
  predicate IsTarget(serverAddress: int, clientAddress: int)
  {
    true
  }

  /** The constant answers: version-3 attribute access is Read, both method
      access queries allow, and every address pair is accepted. */
  lemma ConstantAnswers(q: AttributeQuery, target: Kind, methodIndex: int, serverAddress: int, clientAddress: int)
    ensures GetAttributeAccess3(q) == Read3
    ensures GetMethodAccess(target, methodIndex) == MethodAccess
    ensures GetMethodAccess3(target, methodIndex) == MethodAccess3
    ensures IsTarget(serverAddress, clientAddress)
  {
  }

  /** The password every mechanism may present: ASCII "AAAAAAAAAAAAAAAA". */
  const AcceptedPassword: seq<Byte> := Meter.SixteenA

  /** The authentication check. A null password is `None`. */
  function ValidateAuthentication(mechanism: Authentication, password: Option<seq<Byte>>): (r: SourceDiagnostic)
    ensures r == Accepted <==>
      mechanism == NoAuthentication || password == Some(AcceptedPassword) || mechanism == High
  {
    if mechanism == NoAuthentication then Accepted
    else if password.Some? && password.value == AcceptedPassword then Accepted
    else if mechanism == High then Accepted
    else AuthenticationFailure
  }

  /** ASCII "12345678", the meter's advertised low-level password. */
  const LlsPasswordBytes: seq<Byte> := [0x31, 0x32, 0x33, 0x34, 0x35, 0x36, 0x37, 0x38]

  /** Under Low, the check rejects a null password and rejects the meter's
      own advertised password "12345678": the password it accepts is the
      hard-coded sixteen 'A's. The other high mechanisms get no free pass. */
  lemma LowUsesHardCodedPassword(password: Option<seq<Byte>>)
    ensures ValidateAuthentication(Low, None) == AuthenticationFailure
    ensures ValidateAuthentication(Low, Some(LlsPasswordBytes)) == AuthenticationFailure
    ensures |Meter.DefaultLlsPassword| == |LlsPasswordBytes| &&
            forall i :: 0 <= i < |LlsPasswordBytes| ==> Meter.DefaultLlsPassword[i] as int == LlsPasswordBytes[i]
    ensures ValidateAuthentication(Low, password) == Accepted <==> password == Some(AcceptedPassword)
    ensures ValidateAuthentication(HighGmac, password) == ValidateAuthentication(Low, password)
  {
    assert LlsPasswordBytes[0] != AcceptedPassword[0];
  }
}
