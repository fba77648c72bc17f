/**
 * An abstraction of the Lua virtual machine as the core sees it: a table of
 * registered API globals and a diagnostic channel of warnings.
 */
module LuaHosts {
  import opened Wrappers
  import opened UserscriptApi

  class LuaHost {
    /** The API objects set as Lua globals, keyed by their name. */
    var globals: map<string, ApiObject>
    /** Warnings sent to the userscript environment, oldest first. */
    var warnings: seq<string>

    constructor ()
      ensures globals == map[] && warnings == []
    {
      globals := map[];
      warnings := [];
    }

    /**
     * Registers `api` under its name. `setFailure` is what setting the global
     * reports: `None` when it succeeds.
     */
    method RegisterUserApi(api: ApiObject, setFailure: Option<LuaError>) returns (r: Outcome<LuaError>)
      modifies this
      ensures setFailure.None? ==> r == Pass && globals == old(globals)[api.Name() := api]
      ensures setFailure.Some? ==> r == Fail(setFailure.value) && globals == old(globals)
      ensures warnings == old(warnings)
    {
      if setFailure.Some? {
        return Fail(setFailure.value);
      }
      globals := globals[api.Name() := api];
      r := Pass;
    }

    /**
     * Registration as `ApiObject::init_script` documents it: the API's startup
     * script runs first, and `init` is what it reports. A failing script stops
     * the registration; otherwise the API is registered as above.
     */
    method RegisterUserApiAsDocumented(api: ApiObject, init: Outcome<LuaError>, setFailure: Option<LuaError>)
      returns (r: Outcome<LuaError>)
      modifies this
      ensures init.Fail? ==> r == init && globals == old(globals)
      ensures init.Pass? && setFailure.None? ==> r == Pass && globals == old(globals)[api.Name() := api]
      ensures init.Pass? && setFailure.Some? ==> r == Fail(setFailure.value) && globals == old(globals)
      ensures warnings == old(warnings)
    {
      if init.Fail? {
        return init;
      }
      r := RegisterUserApi(api, setFailure);
    }

    /** The warning channel only ever grows at its end. */
    method SendWarning(warning: string)
      modifies this
      ensures warnings == old(warnings) + [warning]
      ensures globals == old(globals)
    {
      warnings := warnings + [warning];
    }
  }

  /**
   * As written, registering never runs the startup script: an API whose
   * startup script fails with `e` is registered all the same, where the
   * documented registration reports `e` and registers nothing.
   */
  method StartupFailureIgnored(api: ApiObject, e: LuaError) returns (asWritten: Outcome<LuaError>, documented: Outcome<LuaError>)
    ensures asWritten == Pass && documented == Fail(e)
  {
    var vm := new LuaHost();
    asWritten := vm.RegisterUserApi(api, None);
    var other := new LuaHost();
    documented := other.RegisterUserApiAsDocumented(api, Fail(e), None);
  }
}
