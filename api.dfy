/**
 * `janeiro/api.py`: the registry where plugins leave routes, dependencies and
 * middlewares for the web application.
 */
module Api {
  import opened Types

  /** A route added through the registry's router. */
  datatype Route = Route(path: string, endpoint: string, responseModel: Option<string>)

  /** `Depends(dependency)`: a dependency marker around a callable, named here by its function. */
  datatype Depends = Depends(dependency: string)

  /** A middleware class with the keyword options it is to be built with. */
  datatype Middleware = Middleware(middleware: string, options: map<string, Value>)

  class ApiRegistry {
    var routes: seq<Route>
    var dependencies: seq<Depends>
    var middlewares: seq<Middleware>

    /** An empty router, no dependencies, no middlewares. */
    constructor()
      ensures routes == [] && dependencies == [] && middlewares == []
    {
      routes := [];
      dependencies := [];
      middlewares := [];
    }

    /** `add_api_route`: the router's own method, which adds the route at the end. */
    method AddApiRoute(path: string, endpoint: string, responseModel: Option<string>)
      modifies this
      ensures routes == old(routes) + [Route(path, endpoint, responseModel)]
      ensures dependencies == old(dependencies) && middlewares == old(middlewares)
    {
      routes := routes + [Route(path, endpoint, responseModel)];
    }

    /** `add_dependency`: one wrapped dependency at the end; nothing else changes. */
    method AddDependency(dependency: string)
      modifies this
      ensures dependencies == old(dependencies) + [Depends(dependency)]
      ensures routes == old(routes) && middlewares == old(middlewares)
    {
      dependencies := dependencies + [Depends(dependency)];
    }

    /** `add_middleware`: one `(middleware, options)` pair at the end; nothing else changes. */
    method AddMiddleware(middleware: string, options: map<string, Value>)
      modifies this
      ensures middlewares == old(middlewares) + [Middleware(middleware, options)]
      ensures routes == old(routes) && dependencies == old(dependencies)
    {
      middlewares := middlewares + [Middleware(middleware, options)];
    }

    /** `get_dependencies`: the stored list itself, in registration order. */
    method GetDependencies() returns (r: seq<Depends>)
      ensures r == dependencies
    {
      r := dependencies;
    }

    /** `get_middlewares`: the stored list itself, in registration order. */
    method GetMiddlewares() returns (r: seq<Middleware>)
      ensures r == middlewares
    {
      r := middlewares;
    }
  }
}
