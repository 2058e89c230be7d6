/**
`Program::getBuildInfo` for all devices of a program (CL/cl2.hpp), exceptions disabled.
*/
module BuildInfo {
  import opened Prelude

  /** The answer of the runtime for one device: a code and, whatever the code, some value. */
  datatype Answer<T> = Answer(code: int, info: T)

  /** The position of the first device whose query fails, or the number of devices. */
  function FirstFailure<T>(answers: seq<Answer<T>>): (k: nat)
    ensures k <= |answers|
    ensures forall i :: 0 <= i < k ==> answers[i].code == CL_SUCCESS
    ensures k < |answers| ==> answers[k].code != CL_SUCCESS
  {
    if answers == [] then 0
    else if answers[0].code != CL_SUCCESS then 0
    else 1 + FirstFailure(answers[1..])
  }

  /** All or nothing: either the list of devices was obtained and every query succeeded, and the result
      has one entry per device in the order of the devices; or it is empty and the code is that of the
      first thing that failed. */
  method GetBuildInfo<T>(listCode: int, devices: seq<int>, answers: seq<Answer<T>>)
    returns (info: seq<(int, T)>, err: int)
    requires |answers| == |devices|
    ensures err == CL_SUCCESS <==> listCode == CL_SUCCESS && FirstFailure(answers) == |answers|
    ensures err == CL_SUCCESS ==>
              |info| == |devices| && forall i :: 0 <= i < |devices| ==> info[i] == (devices[i], answers[i].info)
    ensures err != CL_SUCCESS ==>
              info == [] && err == if listCode != CL_SUCCESS then listCode else answers[FirstFailure(answers)].code
  {
    info := [];
    if listCode != CL_SUCCESS {
      return info, listCode;
    }
    err := CL_SUCCESS;
    var i := 0;
    while i < |devices|
      invariant 0 <= i <= FirstFailure(answers) && err == CL_SUCCESS && |info| == i
      invariant forall j :: 0 <= j < i ==> info[j] == (devices[j], answers[j].info)
    {
      err := answers[i].code;
      info := info + [(devices[i], answers[i].info)];
      if err != CL_SUCCESS {
        break;
      }
      i := i + 1;
    }
    if err != CL_SUCCESS {
      info := [];
    }
  }
}
