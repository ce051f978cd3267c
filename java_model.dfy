/**
 * The reflective view of a service that the resolvers read: Java types,
 * annotations, methods and classes, given as plain data instead of being
 * discovered through `java.lang.reflect`.
 */
module JavaModel {
  import opened Wrappers

  const ObjectTypeName: string := "java.lang.Object"

  /**
   * A reference type: its fully qualified name and the names of all its
   * proper supertypes (superclasses and interfaces, transitively).
   */
  datatype JavaType = JavaType(name: string, supertypes: set<string>)

  /** `target.isAssignableFrom(from)`: `from` is `target` itself or one of its subtypes. */
  predicate IsAssignableFrom(target: JavaType, from: JavaType) {
    from.name == target.name || target.name in from.supertypes
  }

  /** The nine route annotations; `Path` on a method is the any-verb route, on a class the path prefix. */
  datatype Tag = Get | Post | Put | Delete | Connect | Options | Head | Patch | Path

  /** What `Annotation.annotationType()` answers. */
  datatype AnnotationType = TagType(tag: Tag) | ProducesType | ConsumesType | OtherType(name: string)

  /** An annotation instance together with its `value()`. */
  datatype Annotation =
    | TagAnnotation(tag: Tag, value: string)
    | ProducesAnnotation(mediaTypes: seq<string>)
    | ConsumesAnnotation(mediaTypes: seq<string>)
    | OtherAnnotation(name: string)

  function AnnotationTypeOf(a: Annotation): AnnotationType {
    match a
    case TagAnnotation(t, _) => TagType(t)
    case ProducesAnnotation(_) => ProducesType
    case ConsumesAnnotation(_) => ConsumesType
    case OtherAnnotation(n) => OtherType(n)
  }

  /**
   * A method as reflection reports it. `accessible` says whether
   * `MethodHandles.publicLookup().unreflect` may produce a handle for it.
   */
  datatype JavaMethod = JavaMethod(
    name: string,
    isStatic: bool,
    isPublic: bool,
    annotations: seq<Annotation>,
    parameterTypes: seq<JavaType>,
    accessible: bool)

  /** A class: its modifiers, its annotations and what `getMethods()` returns, in that order. */
  datatype JavaClass = JavaClass(
    name: string,
    isPublic: bool,
    annotations: seq<Annotation>,
    methods: seq<JavaMethod>)

  /** A service object; `runtimeClass` is what `getClass()` returns. */
  datatype Service = Service(id: nat, runtimeClass: JavaClass)

  /** The throwables this layer raises or forwards. */
  datatype Throwable =
    | RuntimeException(message: string)  // `new RuntimeException(message)`
    | AccessDenied(methodName: string)   // a RuntimeException wrapping an IllegalAccessException
    | ApplicationError(code: nat)        // anything thrown by code outside this layer

  /** A Java call that either returns a value or throws. */
  datatype Result<+T> = Ok(value: T) | Throws(error: Throwable)
}
